/**
  GetUpdates: a producer pages through the links table and feeds a bounded channel that a fixed
  number of workers drain, while the workers and the rest of the system change the same table.
 */
module WorkerPool {
  import Schema

  type LinkId = Schema.LinkId
  type Time = Schema.Time

  datatype LinkRow = LinkRow(id: LinkId, lastUpdated: Time)

  /** `Busy(k)` is processing the k-th link ever taken from the channel. */
  datatype Worker = Ranging | Busy(k: nat) | Done
  datatype Taken = Taken(worker: nat, link: LinkId)

  /** The producer: before the context check, at the query, within the send loop, at wg.Wait, returned. */
  datatype Pc = Start | Query | Sending(page: seq<LinkId>, next: nat) | Waiting | Returned(ok: bool)

  /**
    Batch size and number of fetchers are positive: the constructor rejects anything else.  Pages are
    cut from the table in order of id, or, in the plain SQL repository, in order of last_updated.
   */
  datatype Config = Config(batchSize: nat, fetchers: nat, byTime: bool)

  /** The rows in order of id; `nextId` is the id sequence, which never gives an id twice. */
  datatype World = World(
    rows: seq<LinkRow>,
    nextId: LinkId,
    cancelled: bool,
    pc: Pc,
    offset: nat,
    buffer: seq<LinkId>,
    closes: nat,
    panicked: bool,
    workers: seq<Worker>,
    enqueued: seq<LinkId>,
    taken: seq<Taken>,
    processed: set<nat>)

  datatype Action =
    | Begin | QueryOk | QueryFails | Push | Abort | Join
    | Take(w: nat) | Finish(w: nat) | Exit(w: nat)
    | Cancel | Touch(i: nat, at: Time) | Insert(row: LinkRow) | Remove(i: nat)

  predicate Environment(a: Action) {
    a.Cancel? || a.Touch? || a.Insert? || a.Remove?
  }

  function Ids(rows: seq<LinkRow>): (ids: seq<LinkId>)
    ensures |ids| == |rows| && forall i :: 0 <= i < |rows| ==> ids[i] == rows[i].id
  {
    seq(|rows|, i requires 0 <= i < |rows| => rows[i].id)
  }

  /** LIMIT and OFFSET over the rows in the order of the query; either may reach beyond the end. */
  function Page<T>(rows: seq<T>, limit: nat, offset: nat): seq<T> {
    if offset >= |rows| then []
    else if offset + limit >= |rows| then rows[offset..]
    else rows[offset..offset + limit]
  }

  function Place(row: LinkRow, rows: seq<LinkRow>): (placed: seq<LinkRow>)
    ensures |placed| == |rows| + 1
  {
    if rows == [] || row.lastUpdated <= rows[0].lastUpdated then [row] + rows
    else [rows[0]] + Place(row, rows[1..])
  }

  function SortByTime(rows: seq<LinkRow>): (sorted: seq<LinkRow>)
    ensures |sorted| == |rows|
  {
    if rows == [] then [] else Place(rows[0], SortByTime(rows[1..]))
  }

  /** The ids in the order of the query. */
  function QueryIds(rows: seq<LinkRow>, cfg: Config): (ids: seq<LinkId>)
    ensures |ids| == |rows|
  {
    Ids(if cfg.byTime then SortByTime(rows) else rows)
  }

  predicate AllDone(workers: seq<Worker>) {
    forall w :: 0 <= w < |workers| ==> workers[w] == Done
  }

  predicate Enabled(s: World, cfg: Config, a: Action) {
    match a
    case Begin => s.pc == Start
    case QueryOk => s.pc == Query
    case QueryFails => s.pc == Query
    case Push => s.pc.Sending? && s.pc.next < |s.pc.page| && |s.buffer| < cfg.batchSize
    case Abort => s.pc.Sending? && s.cancelled
    case Join => s.pc == Waiting && AllDone(s.workers)
    case Take(w) => w < |s.workers| && s.workers[w] == Ranging && s.buffer != []
    case Finish(w) => w < |s.workers| && s.workers[w].Busy?
    case Exit(w) => w < |s.workers| && s.workers[w] == Ranging && s.buffer == [] && s.closes > 0
    case Cancel => true
    case Touch(i, _) => i < |s.rows|
    case Insert(row) => s.nextId <= row.id
    case Remove(i) => i < |s.rows|
  }

  /** Closing a closed channel panics. */
  function Close(s: World, pc: Pc): World {
    s.(closes := s.closes + 1, panicked := s.panicked || s.closes > 0, pc := pc)
  }

  function Next(s: World, cfg: Config, a: Action): World
    requires Enabled(s, cfg, a)
  {
    match a
    case Begin =>
      if s.cancelled then s.(pc := Returned(false))
      else s.(workers := seq(cfg.fetchers, i => Ranging), pc := Query)
    case QueryOk =>
      var page := Page(QueryIds(s.rows, cfg), cfg.batchSize, s.offset);
      if page == [] then Close(s, Waiting) else s.(pc := Sending(page, 0))
    case QueryFails => Close(s, Returned(false))
    case Push =>
      // Sending on a closed channel panics.
      var sent := s.(buffer := s.buffer + [s.pc.page[s.pc.next]],
                     enqueued := s.enqueued + [s.pc.page[s.pc.next]],
                     panicked := s.panicked || s.closes > 0);
      if s.pc.next + 1 < |s.pc.page| then sent.(pc := Sending(s.pc.page, s.pc.next + 1))
      else sent.(pc := Query, offset := s.offset + cfg.batchSize)
    case Abort => Close(s, Returned(false))
    case Join => s.(pc := Returned(true))
    case Take(w) =>
      s.(buffer := s.buffer[1..], taken := s.taken + [Taken(w, s.buffer[0])],
         workers := s.workers[w := Busy(|s.taken|)])
    case Finish(w) => s.(processed := s.processed + {s.workers[w].k}, workers := s.workers[w := Ranging])
    case Exit(w) => s.(workers := s.workers[w := Done])
    case Cancel => s.(cancelled := true)
    case Touch(i, at) => s.(rows := s.rows[i := s.rows[i].(lastUpdated := at)])
    case Insert(row) => s.(rows := s.rows + [row], nextId := row.id + 1)
    case Remove(i) => s.(rows := s.rows[..i] + s.rows[i+1..])
  }

  ghost predicate Possible(s: World, cfg: Config, actions: seq<Action>)
    decreases |actions|
  {
    actions == [] || (Enabled(s, cfg, actions[0]) && Possible(Next(s, cfg, actions[0]), cfg, actions[1..]))
  }

  ghost function After(s: World, cfg: Config, actions: seq<Action>): World
    requires Possible(s, cfg, actions)
    decreases |actions|
  {
    if actions == [] then s else After(Next(s, cfg, actions[0]), cfg, actions[1..])
  }

  function Initial(rows: seq<LinkRow>, nextId: LinkId, cancelled: bool): World {
    World(rows, nextId, cancelled, Start, 0, [], 0, false, [], [], [], {})
  }

  function LinksOf(taken: seq<Taken>): (links: seq<LinkId>)
    ensures |links| == |taken| && forall i :: 0 <= i < |taken| ==> links[i] == taken[i].link
  {
    seq(|taken|, i requires 0 <= i < |taken| => taken[i].link)
  }

  // ---------------------------------------------------------------- the pool in every reachable state

  ghost predicate ChannelOk(s: World, cfg: Config) {
    && !s.panicked
    && |s.buffer| <= cfg.batchSize
    && match s.pc
       case Start =>
         s.closes == 0 && s.offset == 0 && s.workers == [] && s.buffer == [] && s.taken == [] && s.enqueued == []
       case Query => s.closes == 0 && |s.workers| == cfg.fetchers
       case Sending(page, next) => s.closes == 0 && |s.workers| == cfg.fetchers && next < |page|
       case Waiting => s.closes == 1 && |s.workers| == cfg.fetchers
       case Returned(ok) =>
         if ok then s.closes == 1 && |s.workers| == cfg.fetchers && AllDone(s.workers)
         else if s.closes == 0 then s.workers == [] && s.buffer == [] && s.enqueued == []
         else s.closes == 1 && |s.workers| == cfg.fetchers
  }

  /** The k-th link enqueued is still buffered, or is in the hands of one worker, or has been processed by it. */
  ghost predicate HandOverOk(s: World) {
    && s.enqueued == LinksOf(s.taken) + s.buffer
    && (forall w :: 0 <= w < |s.workers| && s.workers[w].Busy? ==>
          var k := s.workers[w].k; k < |s.taken| && s.taken[k].worker == w && k !in s.processed)
    && (forall k :: k in s.processed ==> k < |s.taken|)
    && (forall k: nat :: k < |s.taken| && k !in s.processed ==>
          s.taken[k].worker < |s.workers| && s.workers[s.taken[k].worker] == Busy(k))
    && (forall w :: 0 <= w < |s.workers| && s.workers[w] == Done ==> s.closes > 0 && s.buffer == [])
  }

  ghost predicate Finished(s: World) {
    s.pc.Returned? && AllDone(s.workers)
  }

  lemma NextKeepsChannel(s: World, cfg: Config, a: Action)
    requires ChannelOk(s, cfg) && Enabled(s, cfg, a)
    ensures ChannelOk(Next(s, cfg, a), cfg)
  {
  }

  lemma TakeKeepsHandOver(s: World, cfg: Config, w: nat)
    requires ChannelOk(s, cfg) && HandOverOk(s) && Enabled(s, cfg, Take(w))
    ensures HandOverOk(Next(s, cfg, Take(w)))
  {
    var s' := Next(s, cfg, Take(w));
    assert LinksOf(s'.taken) == LinksOf(s.taken) + [s.buffer[0]];
    assert [s.buffer[0]] + s.buffer[1..] == s.buffer;
    assert s'.enqueued == LinksOf(s'.taken) + s'.buffer;
  }

  lemma FinishKeepsHandOver(s: World, cfg: Config, w: nat)
    requires HandOverOk(s) && Enabled(s, cfg, Finish(w))
    ensures HandOverOk(Next(s, cfg, Finish(w)))
  {
  }

  lemma ExitKeepsHandOver(s: World, cfg: Config, w: nat)
    requires HandOverOk(s) && Enabled(s, cfg, Exit(w))
    ensures HandOverOk(Next(s, cfg, Exit(w)))
  {
  }

  lemma PushKeepsHandOver(s: World, cfg: Config)
    requires ChannelOk(s, cfg) && HandOverOk(s) && Enabled(s, cfg, Push)
    ensures HandOverOk(Next(s, cfg, Push))
  {
    var s' := Next(s, cfg, Push);
    assert s'.enqueued == LinksOf(s'.taken) + s'.buffer;
  }

  lemma NextKeepsHandOver(s: World, cfg: Config, a: Action)
    requires ChannelOk(s, cfg) && HandOverOk(s) && Enabled(s, cfg, a)
    ensures HandOverOk(Next(s, cfg, a))
  {
    match a {
      case Push => PushKeepsHandOver(s, cfg);
      case Take(w) => TakeKeepsHandOver(s, cfg, w);
      case Finish(w) => FinishKeepsHandOver(s, cfg, w);
      case Exit(w) => ExitKeepsHandOver(s, cfg, w);
      case _ => HandOverIgnores(s, Next(s, cfg, a));
    }
  }

  /** The other steps move no link: at most they start the workers or close the channel. */
  lemma HandOverIgnores(s: World, s': World)
    requires HandOverOk(s)
    requires s'.enqueued == s.enqueued && s'.taken == s.taken && s'.buffer == s.buffer && s'.processed == s.processed
    requires s'.closes >= s.closes
    requires s'.workers == s.workers ||
      (s.workers == [] && forall w :: 0 <= w < |s'.workers| ==> s'.workers[w] == Ranging)
    ensures HandOverOk(s')
  {
  }

  /**
    In every reachable state, whatever the table does and wherever an error or a cancellation
    strikes: the buffer is bounded, nothing is sent after a close and nothing closed twice, and
    each link enqueued has at most one taker.
   */
  lemma {:induction false} PoolIsSafe(s: World, cfg: Config, actions: seq<Action>)
    requires Possible(s, cfg, actions) && ChannelOk(s, cfg) && HandOverOk(s)
    ensures ChannelOk(After(s, cfg, actions), cfg) && HandOverOk(After(s, cfg, actions))
    decreases |actions|
  {
    if actions != [] {
      NextKeepsChannel(s, cfg, actions[0]);
      NextKeepsHandOver(s, cfg, actions[0]);
      PoolIsSafe(Next(s, cfg, actions[0]), cfg, actions[1..]);
    }
  }

  /**
    The channel is closed exactly once on every path that made it, and once all workers are gone
    every link enqueued was taken by exactly one worker and processed, also after a failed return.
   */
  lemma EveryLinkProcessedOnce(rows: seq<LinkRow>, nextId: LinkId, cancelled: bool, cfg: Config, actions: seq<Action>)
    requires cfg.fetchers > 0 && Possible(Initial(rows, nextId, cancelled), cfg, actions)
    ensures var s := After(Initial(rows, nextId, cancelled), cfg, actions);
            && !s.panicked && |s.buffer| <= cfg.batchSize
            && (s.pc.Returned? ==> s.closes == if s.workers == [] then 0 else 1)
            && (Finished(s) ==>
                  && s.enqueued == LinksOf(s.taken)
                  && forall k: nat :: k in s.processed <==> k < |s.enqueued|)
  {
    var s0 := Initial(rows, nextId, cancelled);
    PoolIsSafe(s0, cfg, actions);
    var s := After(s0, cfg, actions);
    if Finished(s) && s.workers != [] {
      assert s.workers[0] == Done;
      assert LinksOf(s.taken) + [] == LinksOf(s.taken);
    }
  }

  /** A call that is cancelled before it begins does nothing at all. */
  lemma CancelledAtStart(s: World, cfg: Config)
    requires s.pc == Start && s.cancelled
    ensures Next(s, cfg, Begin) == s.(pc := Returned(false))
  {
  }

  /** GetUpdates returns an error only for a reason: a query failed or the context was cancelled. */
  lemma {:induction false} ErrorsHaveCauses(s: World, cfg: Config, actions: seq<Action>)
    requires Possible(s, cfg, actions) && s.pc != Returned(false)
    ensures After(s, cfg, actions).pc == Returned(false) ==> After(s, cfg, actions).cancelled || QueryFails in actions
    decreases |actions|
  {
    if actions != [] {
      var s' := Next(s, cfg, actions[0]);
      if s'.pc == Returned(false) {
        assert actions[0] != QueryFails ==> s'.cancelled;
        StaysReturned(s', cfg, actions[1..]);
      } else {
        ErrorsHaveCauses(s', cfg, actions[1..]);
      }
    }
  }

  lemma {:induction false} StaysReturned(s: World, cfg: Config, actions: seq<Action>)
    requires Possible(s, cfg, actions) && s.pc.Returned?
    ensures After(s, cfg, actions).pc == s.pc && (s.cancelled ==> After(s, cfg, actions).cancelled)
    decreases |actions|
  {
    if actions != [] { StaysReturned(Next(s, cfg, actions[0]), cfg, actions[1..]); }
  }

  // ---------------------------------------------------------------- progress

  /** A step that the pool itself can take next, and that does not give up. */
  lemma ProgressStep(s: World, cfg: Config) returns (a: Action)
    requires cfg.batchSize > 0 && cfg.fetchers > 0 && ChannelOk(s, cfg) && HandOverOk(s) && !Finished(s)
    ensures Enabled(s, cfg, a) && !Environment(a) && !a.QueryFails? && !a.Abort?
  {
    if s.pc == Start {
      a := Begin;
    } else if s.pc == Query {
      a := QueryOk;
    } else if s.pc.Sending? && |s.buffer| < cfg.batchSize {
      a := Push;
    } else if s.pc == Waiting && AllDone(s.workers) {
      a := Join;
    } else {
      assert s.pc.Sending? ==> s.workers[0] != Done;
      a := WorkerStep(s, cfg);
    }
  }

  /** A worker that has not left can go on: an empty buffer stops it only while the channel is open. */
  lemma WorkerStep(s: World, cfg: Config) returns (a: Action)
    requires !AllDone(s.workers) && (s.buffer == [] ==> s.closes > 0)
    ensures Enabled(s, cfg, a) && (a.Take? || a.Finish? || a.Exit?)
  {
    var w: nat :| w < |s.workers| && s.workers[w] != Done;
    a := if s.workers[w].Busy? then Finish(w) else if s.buffer != [] then Take(w) else Exit(w);
  }

  /** No deadlock: until the producer has returned and all workers are gone, some step of the pool can be taken. */
  lemma PoolProgresses(s: World, cfg: Config)
    requires cfg.batchSize > 0 && cfg.fetchers > 0 && ChannelOk(s, cfg) && HandOverOk(s) && !Finished(s)
    ensures exists a :: Enabled(s, cfg, a) && !Environment(a)
  {
    var a := ProgressStep(s, cfg);
  }

  function BusyCount(workers: seq<Worker>): nat {
    if workers == [] then 0
    else BusyCount(workers[..|workers|-1]) + if workers[|workers|-1].Busy? then 1 else 0
  }

  function LiveCount(workers: seq<Worker>): nat {
    if workers == [] then 0
    else LiveCount(workers[..|workers|-1]) + if workers[|workers|-1] == Done then 0 else 1
  }

  lemma {:induction false} CountsOfUpdate(workers: seq<Worker>, w: nat, x: Worker)
    requires w < |workers|
    ensures BusyCount(workers[w := x]) ==
            BusyCount(workers) - (if workers[w].Busy? then 1 else 0) + (if x.Busy? then 1 else 0)
    ensures LiveCount(workers[w := x]) ==
            LiveCount(workers) - (if workers[w] == Done then 0 else 1) + (if x == Done then 0 else 1)
  {
    var n := |workers| - 1;
    if w < n {
      assert workers[w := x][..n] == workers[..n][w := x];
      CountsOfUpdate(workers[..n], w, x);
    } else {
      assert workers[w := x][..n] == workers[..n];
    }
  }

  lemma {:induction false} CountsOfFresh(n: nat)
    ensures BusyCount(seq(n, i => Ranging)) == 0 && LiveCount(seq(n, i => Ranging)) == n
  {
    if n > 0 {
      assert seq(n, i => Ranging)[..n-1] == seq(n - 1, i => Ranging);
      CountsOfFresh(n - 1);
    }
  }

  function Beyond(rows: seq<LinkRow>, offset: nat): nat {
    if offset < |rows| then |rows| - offset else 0
  }

  /** The steps that are left if the table does not change. */
  function StepsLeft(s: World, cfg: Config): int {
    3 * |s.buffer| + 2 * BusyCount(s.workers) + LiveCount(s.workers) +
    match s.pc
    case Start => 6 * |s.rows| + cfg.fetchers + 4
    case Query => 6 * Beyond(s.rows, s.offset) + 3
    case Sending(page, next) => 6 * (|page| - next + Beyond(s.rows, s.offset + cfg.batchSize)) + 2
    case Waiting => 1
    case Returned(_) => 0
  }

  /** Every step of the pool uses some of them up. */
  lemma PoolTerminates(s: World, cfg: Config, a: Action)
    requires cfg.batchSize > 0 && ChannelOk(s, cfg)
    requires Enabled(s, cfg, a) && !Environment(a)
    ensures StepsLeft(Next(s, cfg, a), cfg) < StepsLeft(s, cfg)
    ensures StepsLeft(Next(s, cfg, a), cfg) >= 0
  {
    match a {
      case Begin => BeginUsesSteps(s, cfg);
      case QueryOk => QueryUsesSteps(s, cfg);
      case Push => PushUsesSteps(s, cfg);
      case Take(w) => TakeUsesSteps(s, cfg, w);
      case Finish(w) => FinishUsesSteps(s, cfg, w);
      case Exit(w) => ExitUsesSteps(s, cfg, w);
      case _ => ReturningUsesSteps(s, cfg, a);
    }
  }

  lemma BeginUsesSteps(s: World, cfg: Config)
    requires ChannelOk(s, cfg) && s.pc == Start
    ensures 0 <= StepsLeft(Next(s, cfg, Begin), cfg) < StepsLeft(s, cfg)
  {
    CountsOfFresh(cfg.fetchers);
  }

  lemma PushUsesSteps(s: World, cfg: Config)
    requires ChannelOk(s, cfg) && Enabled(s, cfg, Push)
    ensures 0 <= StepsLeft(Next(s, cfg, Push), cfg) < StepsLeft(s, cfg)
  {
  }

  lemma TakeUsesSteps(s: World, cfg: Config, w: nat)
    requires ChannelOk(s, cfg) && Enabled(s, cfg, Take(w))
    ensures 0 <= StepsLeft(Next(s, cfg, Take(w)), cfg) < StepsLeft(s, cfg)
  {
    CountsOfUpdate(s.workers, w, Busy(|s.taken|));
  }

  lemma FinishUsesSteps(s: World, cfg: Config, w: nat)
    requires ChannelOk(s, cfg) && Enabled(s, cfg, Finish(w))
    ensures 0 <= StepsLeft(Next(s, cfg, Finish(w)), cfg) < StepsLeft(s, cfg)
  {
    CountsOfUpdate(s.workers, w, Ranging);
  }

  lemma ExitUsesSteps(s: World, cfg: Config, w: nat)
    requires ChannelOk(s, cfg) && Enabled(s, cfg, Exit(w))
    ensures 0 <= StepsLeft(Next(s, cfg, Exit(w)), cfg) < StepsLeft(s, cfg)
  {
    CountsOfUpdate(s.workers, w, Done);
  }

  lemma ReturningUsesSteps(s: World, cfg: Config, a: Action)
    requires ChannelOk(s, cfg) && Enabled(s, cfg, a) && (a.QueryFails? || a.Abort? || a.Join?)
    ensures 0 <= StepsLeft(Next(s, cfg, a), cfg) < StepsLeft(s, cfg)
  {
  }

  /**
    And neither the workers' writes to rows that exist nor a cancellation nor a removal adds any: only
    new rows do.  So GetUpdates and its workers end once no more rows arrive.
   */
  lemma OnlyNewLinksAddSteps(s: World, cfg: Config, a: Action)
    requires Enabled(s, cfg, a) && Environment(a) && !a.Insert?
    ensures StepsLeft(Next(s, cfg, a), cfg) <= StepsLeft(s, cfg)
  {
    assert |Next(s, cfg, a).rows| <= |s.rows|;
  }

  lemma QueryUsesSteps(s: World, cfg: Config)
    requires cfg.batchSize > 0 && s.pc == Query
    ensures StepsLeft(Next(s, cfg, QueryOk), cfg) == StepsLeft(s, cfg) - if s.offset < |s.rows| then 1 else 2
  {
    var page := Page(QueryIds(s.rows, cfg), cfg.batchSize, s.offset);
    assert |page| + Beyond(s.rows, s.offset + cfg.batchSize) == Beyond(s.rows, s.offset);
  }

  ghost predicate Undisturbed(actions: seq<Action>) {
    forall i :: 0 <= i < |actions| ==> !Environment(actions[i])
  }

  lemma AfterStep(s: World, cfg: Config, a: Action, rest: seq<Action>)
    requires Enabled(s, cfg, a) && Possible(Next(s, cfg, a), cfg, rest)
    ensures Possible(s, cfg, [a] + rest) && After(s, cfg, [a] + rest) == After(Next(s, cfg, a), cfg, rest)
  {
    assert ([a] + rest)[1..] == rest;
  }

  lemma StaysAlive(s: World, cfg: Config, a: Action)
    requires Enabled(s, cfg, a) && !Environment(a) && !a.QueryFails? && !a.Abort?
    requires !s.cancelled && !s.pc.Returned?
    ensures !Next(s, cfg, a).cancelled && Next(s, cfg, a).pc != Returned(false)
  {
  }

  lemma NearerStep(s: World, cfg: Config) returns (a: Action)
    requires cfg.batchSize > 0 && cfg.fetchers > 0 && ChannelOk(s, cfg) && HandOverOk(s)
    requires !s.cancelled && !s.pc.Returned?
    ensures Enabled(s, cfg, a) && !Environment(a)
    ensures ChannelOk(Next(s, cfg, a), cfg) && HandOverOk(Next(s, cfg, a))
    ensures !Next(s, cfg, a).cancelled && Next(s, cfg, a).pc != Returned(false)
    ensures 0 <= StepsLeft(Next(s, cfg, a), cfg) < StepsLeft(s, cfg)
  {
    a := ProgressStep(s, cfg);
    StaysAlive(s, cfg, a);
    NextKeepsChannel(s, cfg, a);
    NextKeepsHandOver(s, cfg, a);
    PoolTerminates(s, cfg, a);
  }

  /** From every state of a pass that has not been cancelled, GetUpdates can return nil if it is left alone. */
  lemma Completes(s: World, cfg: Config) returns (actions: seq<Action>)
    requires cfg.batchSize > 0 && cfg.fetchers > 0 && ChannelOk(s, cfg) && HandOverOk(s)
    requires !s.cancelled && s.pc != Returned(false)
    ensures Possible(s, cfg, actions) && Undisturbed(actions) && After(s, cfg, actions).pc == Returned(true)
    decreases StepsLeft(s, cfg)
  {
    if s.pc == Returned(true) {
      return [];
    }
    var a := NearerStep(s, cfg);
    var rest := Completes(Next(s, cfg, a), cfg);
    AfterStep(s, cfg, a, rest);
    actions := [a] + rest;
  }

  // ---------------------------------------------------------------- the paged walk

  predicate IdsAscend(ids: seq<LinkId>) {
    forall i, j :: 0 <= i < j < |ids| ==> ids[i] < ids[j]
  }

  /** The walk will query again. */
  predicate Paging(s: World) {
    s.pc == Start || s.pc == Query || s.pc.Sending?
  }

  /** The offset of the next query. */
  function Mark(s: World, cfg: Config): nat {
    if s.pc.Sending? then s.offset + cfg.batchSize else s.offset
  }

  /** The links that queries have returned so far: those enqueued and the rest of the page at hand. */
  function Given(s: World): seq<LinkId> {
    if s.pc.Sending? && s.pc.next <= |s.pc.page| then s.enqueued + s.pc.page[s.pc.next..] else s.enqueued
  }

  ghost predicate StandsFrom(ids: seq<LinkId>, mark: nat, x: LinkId) {
    exists i :: mark <= i < |ids| && ids[i] == x
  }

  /** The link stands at or behind the offset of the next query. */
  ghost predicate Coming(s: World, cfg: Config, x: LinkId) {
    Paging(s) && StandsFrom(QueryIds(s.rows, cfg), Mark(s, cfg), x)
  }

  ghost predicate Below(ids: seq<LinkId>, bound: LinkId) {
    forall i :: 0 <= i < |ids| ==> ids[i] < bound
  }

  ghost predicate AllBefore(given: seq<LinkId>, ids: seq<LinkId>, mark: nat) {
    forall g, i :: g in given && mark <= i < |ids| ==> g < ids[i]
  }

  /** What the walk can still meet is only ever larger than what it has met. */
  ghost predicate WalkOk(s: World, cfg: Config) {
    && IdsAscend(Ids(s.rows)) && Below(Ids(s.rows), s.nextId)
    && IdsAscend(Given(s)) && Below(Given(s), s.nextId)
    && (Paging(s) ==> AllBefore(Given(s), Ids(s.rows), Mark(s, cfg)))
  }

  lemma PageJoins(ids: seq<LinkId>, given: seq<LinkId>, mark: nat, limit: nat, bound: LinkId)
    requires IdsAscend(ids) && IdsAscend(given) && AllBefore(given, ids, mark)
    requires Below(ids, bound) && Below(given, bound)
    ensures var all := given + Page(ids, limit, mark);
            IdsAscend(all) && Below(all, bound) && AllBefore(all, ids, mark + limit)
  {
    var page := Page(ids, limit, mark);
    var all := given + page;
    assert forall j :: 0 <= j < |page| ==> mark + j < |ids| && page[j] == ids[mark + j];
    forall i, j | 0 <= i < j < |all| ensures all[i] < all[j] {
      if i < |given| <= j {
        assert given[i] in given && all[j] == ids[mark + (j - |given|)];
      }
    }
    forall g, i | g in all && mark + limit <= i < |ids| ensures g < ids[i] {
      if g in page {
        var j :| 0 <= j < |page| && page[j] == g;
        assert g == ids[mark + j];
      }
    }
  }

  lemma PageMeets(ids: seq<LinkId>, mark: nat, limit: nat, x: LinkId)
    requires limit > 0
    ensures StandsFrom(ids, mark, x) <==> x in Page(ids, limit, mark) || StandsFrom(ids, mark + limit, x)
    ensures Page(ids, limit, mark) == [] ==> !StandsFrom(ids, mark, x)
  {
    var page := Page(ids, limit, mark);
    assert forall j :: 0 <= j < |page| ==> mark + j < |ids| && page[j] == ids[mark + j];
    if StandsFrom(ids, mark, x) {
      var i :| mark <= i < |ids| && ids[i] == x;
      if i < mark + limit { assert page[i - mark] == x; }
    }
  }

  /** A removal moves a link in front of the mark only if it stood at the mark and the removed one before it. */
  lemma RemovalMoves(ids: seq<LinkId>, i: nat, mark: nat, x: LinkId)
    requires i < |ids|
    ensures var ids' := ids[..i] + ids[i+1..];
            && (StandsFrom(ids', mark, x) ==> StandsFrom(ids, mark, x))
            && (StandsFrom(ids, mark, x) && ids[i] != x && !(i < mark < |ids| && ids[mark] == x) ==>
                 StandsFrom(ids', mark, x))
  {
    var ids' := ids[..i] + ids[i+1..];
    assert forall j :: 0 <= j < |ids'| ==> ids'[j] == if j < i then ids[j] else ids[j + 1];
    if StandsFrom(ids, mark, x) && ids[i] != x && !(i < mark < |ids| && ids[mark] == x) {
      var k :| mark <= k < |ids| && ids[k] == x;
      assert ids'[if k < i then k else k - 1] == x;
    }
  }

  lemma RemovalKeepsOrder(ids: seq<LinkId>, i: nat, given: seq<LinkId>, mark: nat, bound: LinkId)
    requires i < |ids| && IdsAscend(ids) && Below(ids, bound)
    ensures var ids' := ids[..i] + ids[i+1..];
            IdsAscend(ids') && Below(ids', bound) && (AllBefore(given, ids, mark) ==> AllBefore(given, ids', mark))
  {
    var ids' := ids[..i] + ids[i+1..];
    assert forall j :: 0 <= j < |ids'| ==> ids'[j] == if j < i then ids[j] else ids[j + 1];
  }

  lemma IdsChange(s: World, cfg: Config, a: Action)
    requires Enabled(s, cfg, a)
    ensures var ids, ids' := Ids(s.rows), Ids(Next(s, cfg, a).rows);
            && (a.Insert? ==> ids' == ids + [a.row.id])
            && (a.Remove? ==> ids' == ids[..a.i] + ids[a.i+1..])
            && (!a.Insert? && !a.Remove? ==> ids' == ids)
  {
    match a {
      case Insert(row) => assert Ids(s.rows + [row]) == Ids(s.rows) + [row.id];
      case Remove(i) => assert Ids(s.rows[..i] + s.rows[i+1..]) == Ids(s.rows)[..i] + Ids(s.rows)[i+1..];
      case Touch(i, at) => assert Ids(s.rows[i := s.rows[i].(lastUpdated := at)]) == Ids(s.rows);
      case _ => assert Next(s, cfg, a).rows == s.rows;
    }
  }

  /** All steps but a successful query and giving up leave what has been met and where the walk stands. */
  lemma StepGives(s: World, cfg: Config, a: Action)
    requires ChannelOk(s, cfg) && Enabled(s, cfg, a) && !a.QueryOk?
    ensures var s' := Next(s, cfg, a);
            && Given(s') <= Given(s) && (!a.Abort? ==> Given(s') == Given(s))
            && (Paging(s') ==> Paging(s) && Mark(s', cfg) == Mark(s, cfg))
            && (Paging(s) && !Paging(s') ==> s'.pc == Returned(false))
            && (a.Abort? || s.pc == Returned(false) ==> s'.pc == Returned(false))
            && (!a.Insert? ==> s'.nextId == s.nextId)
  {
    if a.Push? { PushGives(s, cfg); }
  }

  lemma PushGives(s: World, cfg: Config)
    requires ChannelOk(s, cfg) && Enabled(s, cfg, Push)
    ensures Given(Next(s, cfg, Push)) == Given(s) && Mark(Next(s, cfg, Push), cfg) == Mark(s, cfg)
  {
  }

  lemma QueryGives(s: World, cfg: Config)
    requires s.pc == Query
    ensures var s' := Next(s, cfg, QueryOk);
            var page := Page(QueryIds(s.rows, cfg), cfg.batchSize, s.offset);
            && Given(s') == Given(s) + page && s'.rows == s.rows && s'.nextId == s.nextId
            && (if page == [] then s'.pc == Waiting else Paging(s') && Mark(s', cfg) == s.offset + cfg.batchSize)
  {
  }

  lemma PrefixOk(given: seq<LinkId>, given': seq<LinkId>, bound: LinkId)
    requires given' <= given && IdsAscend(given) && Below(given, bound)
    ensures IdsAscend(given') && Below(given', bound)
  {
    assert forall g :: g in given' ==> g in given;
  }

  lemma NextKeepsWalk(s: World, cfg: Config, a: Action)
    requires !cfg.byTime && ChannelOk(s, cfg) && WalkOk(s, cfg) && Enabled(s, cfg, a)
    ensures WalkOk(Next(s, cfg, a), cfg)
  {
    var s' := Next(s, cfg, a);
    IdsChange(s, cfg, a);
    if a.QueryOk? {
      QueryGives(s, cfg);
      PageJoins(Ids(s.rows), Given(s), s.offset, cfg.batchSize, s.nextId);
    } else {
      StepGives(s, cfg, a);
      PrefixOk(Given(s), Given(s'), s.nextId);
      if a.Remove? {
        RemovalKeepsOrder(Ids(s.rows), a.i, Given(s), Mark(s, cfg), s.nextId);
      } else if a.Insert? {
        InsertKeepsWalk(s, cfg, a.row);
      }
    }
  }

  lemma InsertKeepsWalk(s: World, cfg: Config, row: LinkRow)
    requires ChannelOk(s, cfg) && WalkOk(s, cfg) && s.nextId <= row.id
    ensures WalkOk(Next(s, cfg, Insert(row)), cfg)
  {
    var s' := Next(s, cfg, Insert(row));
    IdsChange(s, cfg, Insert(row));
    StepGives(s, cfg, Insert(row));
    var ids := Ids(s.rows);
    assert forall i :: 0 <= i < |ids| ==> ids[i] in ids;
  }

  // ---------------------------------------------------------------- which links are met

  ghost predicate Removes(s: World, a: Action, x: LinkId) {
    a.Remove? && a.i < |s.rows| && s.rows[a.i].id == x
  }

  /** A removal below the offset of the next query, while the link stands right at that offset. */
  ghost predicate Skips(s: World, cfg: Config, a: Action, x: LinkId) {
    && a.Remove? && Paging(s) && a.i < Mark(s, cfg) < |s.rows|
    && s.rows[Mark(s, cfg)].id == x
  }

  ghost predicate EverRemoved(s: World, cfg: Config, actions: seq<Action>, x: LinkId)
    requires Possible(s, cfg, actions)
    decreases |actions|
  {
    actions != [] && (Removes(s, actions[0], x) || EverRemoved(Next(s, cfg, actions[0]), cfg, actions[1..], x))
  }

  ghost predicate EverSkipped(s: World, cfg: Config, actions: seq<Action>, x: LinkId)
    requires Possible(s, cfg, actions)
    decreases |actions|
  {
    actions != [] && (Skips(s, cfg, actions[0], x) || EverSkipped(Next(s, cfg, actions[0]), cfg, actions[1..], x))
  }

  /** The link has been met or will be. */
  ghost predicate Reached(s: World, cfg: Config, x: LinkId) {
    x in Given(s) || Coming(s, cfg, x) || s.pc == Returned(false)
  }

  /** The link has not been met and never will be, because the walk is past it. */
  ghost predicate Missed(s: World, cfg: Config, x: LinkId) {
    x !in Given(s) && !Coming(s, cfg, x) && x < s.nextId && s.pc != Start
  }

  lemma QueryKeepsReached(s: World, cfg: Config, x: LinkId)
    requires cfg.batchSize > 0 && s.pc == Query && Reached(s, cfg, x)
    ensures Reached(Next(s, cfg, QueryOk), cfg, x)
  {
    QueryGives(s, cfg);
    PageMeets(QueryIds(s.rows, cfg), s.offset, cfg.batchSize, x);
  }

  lemma NextKeepsReached(s: World, cfg: Config, a: Action, x: LinkId)
    requires cfg.batchSize > 0 && !cfg.byTime && ChannelOk(s, cfg) && Reached(s, cfg, x) && Enabled(s, cfg, a)
    requires !Removes(s, a, x) && !Skips(s, cfg, a, x)
    ensures Reached(Next(s, cfg, a), cfg, x)
  {
    if a.QueryOk? {
      QueryKeepsReached(s, cfg, x);
    } else {
      StepGives(s, cfg, a);
      IdsChange(s, cfg, a);
      if a.Remove? {
        RemovalMoves(Ids(s.rows), a.i, Mark(s, cfg), x);
      } else {
        StandsStays(Ids(s.rows), Ids(Next(s, cfg, a).rows), Mark(s, cfg), x);
      }
    }
  }

  lemma StandsStays(ids: seq<LinkId>, ids': seq<LinkId>, mark: nat, x: LinkId)
    requires ids <= ids'
    ensures StandsFrom(ids, mark, x) ==> StandsFrom(ids', mark, x)
  {
  }

  /** A skipped link moves in front of the offset, and nothing has met it before. */
  lemma SkipMisses(s: World, cfg: Config, a: Action, x: LinkId)
    requires !cfg.byTime && ChannelOk(s, cfg) && WalkOk(s, cfg) && Enabled(s, cfg, a) && Skips(s, cfg, a, x)
    ensures Missed(Next(s, cfg, a), cfg, x)
  {
    var ids, ids' := Ids(s.rows), Ids(Next(s, cfg, a).rows);
    StepGives(s, cfg, a);
    IdsChange(s, cfg, a);
    assert forall j :: a.i <= j < |ids'| ==> ids'[j] == ids[j + 1];
    assert ids[Mark(s, cfg)] == x;
  }

  lemma QueryKeepsMissed(s: World, cfg: Config, x: LinkId)
    requires cfg.batchSize > 0 && s.pc == Query && Missed(s, cfg, x)
    ensures Missed(Next(s, cfg, QueryOk), cfg, x)
  {
    QueryGives(s, cfg);
    PageMeets(QueryIds(s.rows, cfg), s.offset, cfg.batchSize, x);
  }

  /** The pool's own steps never meet a link that the walk is past, whatever the order of the query. */
  lemma StepKeepsMissed(s: World, cfg: Config, a: Action, x: LinkId)
    requires cfg.batchSize > 0 && ChannelOk(s, cfg) && Missed(s, cfg, x) && Enabled(s, cfg, a)
    requires !Environment(a) || a.Cancel?
    ensures Missed(Next(s, cfg, a), cfg, x)
  {
    if a.QueryOk? { QueryKeepsMissed(s, cfg, x); } else { StepGives(s, cfg, a); }
  }

  lemma NextKeepsMissed(s: World, cfg: Config, a: Action, x: LinkId)
    requires cfg.batchSize > 0 && !cfg.byTime && ChannelOk(s, cfg) && Missed(s, cfg, x) && Enabled(s, cfg, a)
    ensures Missed(Next(s, cfg, a), cfg, x)
  {
    if !Environment(a) {
      StepKeepsMissed(s, cfg, a, x);
    } else {
      StepGives(s, cfg, a);
      IdsChange(s, cfg, a);
      if a.Remove? { RemovalMoves(Ids(s.rows), a.i, Mark(s, cfg), x); }
    }
  }

  lemma {:induction false} MissedForever(s: World, cfg: Config, actions: seq<Action>, x: LinkId)
    requires cfg.batchSize > 0 && Possible(s, cfg, actions) && ChannelOk(s, cfg) && Missed(s, cfg, x)
    requires !cfg.byTime || Undisturbed(actions)
    ensures Missed(After(s, cfg, actions), cfg, x)
    decreases |actions|
  {
    if actions != [] {
      NextKeepsChannel(s, cfg, actions[0]);
      if cfg.byTime { StepKeepsMissed(s, cfg, actions[0], x); } else { NextKeepsMissed(s, cfg, actions[0], x); }
      MissedForever(Next(s, cfg, actions[0]), cfg, actions[1..], x);
    }
  }

  lemma {:induction false} ReachedUnlessSkipped(s: World, cfg: Config, actions: seq<Action>, x: LinkId)
    requires cfg.batchSize > 0 && !cfg.byTime && Possible(s, cfg, actions) && ChannelOk(s, cfg) && WalkOk(s, cfg)
    ensures WalkOk(After(s, cfg, actions), cfg)
    ensures EverSkipped(s, cfg, actions, x) ==> Missed(After(s, cfg, actions), cfg, x)
    ensures Reached(s, cfg, x) && !EverSkipped(s, cfg, actions, x) && !EverRemoved(s, cfg, actions, x) ==>
              Reached(After(s, cfg, actions), cfg, x)
    decreases |actions|
  {
    if actions != [] {
      var a, s' := actions[0], Next(s, cfg, actions[0]);
      NextKeepsChannel(s, cfg, a);
      NextKeepsWalk(s, cfg, a);
      ReachedUnlessSkipped(s', cfg, actions[1..], x);
      if Skips(s, cfg, a, x) {
        SkipMisses(s, cfg, a, x);
        MissedForever(s', cfg, actions[1..], x);
      } else if Reached(s, cfg, x) && !Removes(s, a, x) {
        NextKeepsReached(s, cfg, a, x);
      }
    }
  }

  ghost predicate GoodTable(rows: seq<LinkRow>, nextId: LinkId) {
    IdsAscend(Ids(rows)) && forall i :: 0 <= i < |rows| ==> rows[i].id < nextId
  }

  ghost predicate Processed(s: World, x: LinkId) {
    exists k :: k in s.processed && k < |s.taken| && s.taken[k].link == x
  }

  /** In a finished pass, what has been enqueued is what has been taken and processed. */
  lemma FinishedProcesses(s: World, cfg: Config, x: LinkId)
    requires cfg.fetchers > 0 && ChannelOk(s, cfg) && HandOverOk(s) && s.pc == Returned(true)
    ensures s.enqueued == LinksOf(s.taken)
    ensures Processed(s, x) <==> x in s.enqueued
  {
    assert s.workers[0] == Done;
    assert LinksOf(s.taken) + [] == LinksOf(s.taken);
    if x in s.enqueued {
      var k: nat :| k < |s.enqueued| && s.enqueued[k] == x;
      assert k in s.processed && s.taken[k].link == x;
    }
  }

  /**
    The paged walk, exactly: while workers change last_updated, links with new ids arrive and links
    are removed anywhere, a GetUpdates that returns nil has processed a link that was there from
    beginning to end if and only if no removal below the offset of the next query ever happened while
    that link stood right at that offset.
   */
  lemma ProcessedIffNeverSkipped(rows: seq<LinkRow>, nextId: LinkId, cancelled: bool, cfg: Config,
                                 actions: seq<Action>, x: LinkId)
    requires cfg.batchSize > 0 && cfg.fetchers > 0 && !cfg.byTime && GoodTable(rows, nextId)
    requires Possible(Initial(rows, nextId, cancelled), cfg, actions)
    requires x in Ids(rows) && !EverRemoved(Initial(rows, nextId, cancelled), cfg, actions, x)
    requires After(Initial(rows, nextId, cancelled), cfg, actions).pc == Returned(true)
    ensures Processed(After(Initial(rows, nextId, cancelled), cfg, actions), x)
            <==> !EverSkipped(Initial(rows, nextId, cancelled), cfg, actions, x)
  {
    var s0 := Initial(rows, nextId, cancelled);
    PoolIsSafe(s0, cfg, actions);
    FinishedProcesses(After(s0, cfg, actions), cfg, x);
    assert Reached(s0, cfg, x) by {
      var i :| 0 <= i < |rows| && Ids(rows)[i] == x;
      assert Mark(s0, cfg) <= i;
    }
    ReachedUnlessSkipped(s0, cfg, actions, x);
  }

  /** A skipped link is never handed to a worker, however the pass goes on and ends. */
  lemma SkippedNeverTaken(rows: seq<LinkRow>, nextId: LinkId, cancelled: bool, cfg: Config,
                          actions: seq<Action>, x: LinkId)
    requires cfg.batchSize > 0 && !cfg.byTime && GoodTable(rows, nextId)
    requires Possible(Initial(rows, nextId, cancelled), cfg, actions)
    requires EverSkipped(Initial(rows, nextId, cancelled), cfg, actions, x)
    ensures x !in LinksOf(After(Initial(rows, nextId, cancelled), cfg, actions).taken)
  {
    var s0 := Initial(rows, nextId, cancelled);
    PoolIsSafe(s0, cfg, actions);
    ReachedUnlessSkipped(s0, cfg, actions, x);
    var s := After(s0, cfg, actions);
    assert x in LinksOf(s.taken) ==> x in LinksOf(s.taken) + s.buffer;
  }

  /** Whatever is removed, no link is handed to the workers twice. */
  lemma NoLinkTakenTwice(rows: seq<LinkRow>, nextId: LinkId, cancelled: bool, cfg: Config,
                         actions: seq<Action>, i: nat, j: nat)
    requires cfg.batchSize > 0 && !cfg.byTime && GoodTable(rows, nextId)
    requires Possible(Initial(rows, nextId, cancelled), cfg, actions)
    requires i < j < |After(Initial(rows, nextId, cancelled), cfg, actions).taken|
    ensures var taken := After(Initial(rows, nextId, cancelled), cfg, actions).taken; taken[i].link != taken[j].link
  {
    var s0 := Initial(rows, nextId, cancelled);
    PoolIsSafe(s0, cfg, actions);
    ReachedUnlessSkipped(s0, cfg, actions, 0);
    var s := After(s0, cfg, actions);
    assert s.enqueued[i] == LinksOf(s.taken)[i] && s.enqueued[j] == LinksOf(s.taken)[j];
    assert Given(s)[i] == s.enqueued[i] && Given(s)[j] == s.enqueued[j];
  }

  /**
    So while no link is removed, a GetUpdates that returns nil has processed each link present at its
    start exactly once.
   */
  lemma WalkProcessesAll(rows: seq<LinkRow>, nextId: LinkId, cancelled: bool, cfg: Config,
                         actions: seq<Action>, x: LinkId)
    requires cfg.batchSize > 0 && cfg.fetchers > 0 && !cfg.byTime && GoodTable(rows, nextId)
    requires Possible(Initial(rows, nextId, cancelled), cfg, actions)
    requires forall i :: 0 <= i < |actions| ==> !actions[i].Remove?
    requires After(Initial(rows, nextId, cancelled), cfg, actions).pc == Returned(true) && x in Ids(rows)
    ensures var s := After(Initial(rows, nextId, cancelled), cfg, actions);
            && Processed(s, x)
            && (forall i, j :: 0 <= i < j < |s.taken| ==> s.taken[i].link != s.taken[j].link)
  {
    var s0 := Initial(rows, nextId, cancelled);
    NothingRemoved(s0, cfg, actions, x);
    ProcessedIffNeverSkipped(rows, nextId, cancelled, cfg, actions, x);
    forall i: nat, j: nat | i < j < |After(s0, cfg, actions).taken|
      ensures After(s0, cfg, actions).taken[i].link != After(s0, cfg, actions).taken[j].link
    {
      NoLinkTakenTwice(rows, nextId, cancelled, cfg, actions, i, j);
    }
  }

  lemma {:induction false} NothingRemoved(s: World, cfg: Config, actions: seq<Action>, x: LinkId)
    requires Possible(s, cfg, actions) && forall i :: 0 <= i < |actions| ==> !actions[i].Remove?
    ensures !EverRemoved(s, cfg, actions, x) && !EverSkipped(s, cfg, actions, x)
    decreases |actions|
  {
    if actions != [] { NothingRemoved(Next(s, cfg, actions[0]), cfg, actions[1..], x); }
  }

  // ---------------------------------------------------------------- runs that miss a link

  /** Begin, read the first page, let the table change once, and finish undisturbed. */
  lemma FirstPageThen(rows: seq<LinkRow>, nextId: LinkId, cfg: Config, change: Action) returns (rest: seq<Action>)
    requires 0 < cfg.batchSize < |rows| && cfg.fetchers > 0 && (change.Remove? || change.Touch?) && change.i < |rows|
    ensures var s0 := Initial(rows, nextId, false);
            var s2 := AtFirstPage(rows, nextId, cfg);
            var actions := [Begin, QueryOk, change] + rest;
            && Enabled(s2, cfg, change) && ChannelOk(Next(s2, cfg, change), cfg)
            && Undisturbed(rest) && Possible(Next(s2, cfg, change), cfg, rest)
            && Possible(s0, cfg, actions)
            && After(s0, cfg, actions) == After(Next(s2, cfg, change), cfg, rest)
            && After(s0, cfg, actions).pc == Returned(true) && HandOverOk(After(s0, cfg, actions))
            && ChannelOk(After(s0, cfg, actions), cfg)
  {
    var s2 := AtFirstPage(rows, nextId, cfg);
    var s3 := Next(s2, cfg, change);
    ReachesFirstPage(rows, nextId, cfg);
    NextKeepsChannel(s2, cfg, change);
    NextKeepsHandOver(s2, cfg, change);
    rest := Completes(s3, cfg);
    PoolIsSafe(s3, cfg, rest);
    AfterStep(s2, cfg, change, rest);
    var s1 := Next(Initial(rows, nextId, false), cfg, Begin);
    AfterStep(s1, cfg, QueryOk, [change] + rest);
    AfterStep(Initial(rows, nextId, false), cfg, Begin, [QueryOk] + ([change] + rest));
    assert [Begin, QueryOk, change] + rest == [Begin] + ([QueryOk] + ([change] + rest));
  }

  lemma ReachesFirstPage(rows: seq<LinkRow>, nextId: LinkId, cfg: Config)
    requires 0 < cfg.batchSize < |rows|
    ensures var s2 := AtFirstPage(rows, nextId, cfg);
            && s2 == Next(Next(Initial(rows, nextId, false), cfg, Begin), cfg, QueryOk)
            && ChannelOk(s2, cfg) && HandOverOk(s2)
  {
    var s1 := Next(Initial(rows, nextId, false), cfg, Begin);
    assert s1.workers == AtFirstPage(rows, nextId, cfg).workers;
    assert LinksOf(s1.taken) + s1.buffer == [];
  }

  function AtFirstPage(rows: seq<LinkRow>, nextId: LinkId, cfg: Config): World
    requires cfg.batchSize < |rows|
  {
    Initial(rows, nextId, false)
      .(workers := seq(cfg.fetchers, i => Ranging), pc := Sending(QueryIds(rows, cfg)[..cfg.batchSize], 0))
  }

  /**
    A pass that returns nil and misses a link: one removal within the first page, right after it was
    read, hides the first link behind that page from the rest of the walk.
   */
  lemma RemovalSkipsALink(rows: seq<LinkRow>, nextId: LinkId, cfg: Config, i: nat) returns (rest: seq<Action>)
    requires i < cfg.batchSize < |rows| && cfg.fetchers > 0 && !cfg.byTime && GoodTable(rows, nextId)
    ensures Undisturbed(rest) && Possible(Initial(rows, nextId, false), cfg, [Begin, QueryOk, Remove(i)] + rest)
    ensures var s := After(Initial(rows, nextId, false), cfg, [Begin, QueryOk, Remove(i)] + rest);
            s.pc == Returned(true) && !Processed(s, rows[cfg.batchSize].id)
  {
    rest := FirstPageThen(rows, nextId, cfg, Remove(i));
    var x, s2 := rows[cfg.batchSize].id, AtFirstPage(rows, nextId, cfg);
    FirstPageWalk(rows, nextId, cfg);
    SkipMisses(s2, cfg, Remove(i), x);
    MissedForever(Next(s2, cfg, Remove(i)), cfg, rest, x);
    FinishedProcesses(After(Next(s2, cfg, Remove(i)), cfg, rest), cfg, x);
  }

  lemma FirstPageWalk(rows: seq<LinkRow>, nextId: LinkId, cfg: Config)
    requires 0 < cfg.batchSize < |rows| && !cfg.byTime && GoodTable(rows, nextId)
    ensures WalkOk(AtFirstPage(rows, nextId, cfg), cfg) && ChannelOk(AtFirstPage(rows, nextId, cfg), cfg)
  {
    var ids := Ids(rows);
    PageJoins(ids, [], 0, cfg.batchSize, nextId);
    assert [] + Page(ids, cfg.batchSize, 0) == ids[..cfg.batchSize];
    assert Given(AtFirstPage(rows, nextId, cfg)) == ids[..cfg.batchSize];
  }

  predicate ByTime(rows: seq<LinkRow>) {
    forall i, j :: 0 <= i < j < |rows| ==> rows[i].lastUpdated < rows[j].lastUpdated
  }

  lemma {:induction false} SortedStays(rows: seq<LinkRow>)
    requires ByTime(rows)
    ensures SortByTime(rows) == rows
  {
    if rows != [] {
      SortedStays(rows[1..]);
      assert Place(rows[0], rows[1..]) == [rows[0]] + rows[1..];
    }
  }

  lemma {:induction false} NewestGoesLast(row: LinkRow, rows: seq<LinkRow>)
    requires forall i :: 0 <= i < |rows| ==> rows[i].lastUpdated < row.lastUpdated
    ensures Place(row, rows) == rows + [row]
  {
    if rows != [] { NewestGoesLast(row, rows[1..]); }
  }

  /** The link has been met at least twice, or has been met and is still to come. */
  ghost predicate MetAgain(s: World, cfg: Config, x: LinkId) {
    multiset(Given(s))[x] >= 2 || (x in Given(s) && Coming(s, cfg, x)) || s.pc == Returned(false)
  }

  lemma QueryKeepsMetAgain(s: World, cfg: Config, x: LinkId)
    requires cfg.batchSize > 0 && s.pc == Query && MetAgain(s, cfg, x)
    ensures MetAgain(Next(s, cfg, QueryOk), cfg, x)
  {
    QueryGives(s, cfg);
    var page := Page(QueryIds(s.rows, cfg), cfg.batchSize, s.offset);
    PageMeets(QueryIds(s.rows, cfg), s.offset, cfg.batchSize, x);
    assert x in page ==> multiset(page)[x] >= 1;
    assert x in Given(s) ==> multiset(Given(s))[x] >= 1;
    assert multiset(Given(s) + page)[x] == multiset(Given(s))[x] + multiset(page)[x];
  }

  lemma StepKeepsMetAgain(s: World, cfg: Config, a: Action, x: LinkId)
    requires cfg.batchSize > 0 && ChannelOk(s, cfg) && MetAgain(s, cfg, x) && Enabled(s, cfg, a) && !Environment(a)
    ensures MetAgain(Next(s, cfg, a), cfg, x)
  {
    if a.QueryOk? { QueryKeepsMetAgain(s, cfg, x); } else { StepGives(s, cfg, a); }
  }

  lemma {:induction false} MetAgainLasts(s: World, cfg: Config, actions: seq<Action>, x: LinkId)
    requires cfg.batchSize > 0 && Possible(s, cfg, actions) && Undisturbed(actions)
    requires ChannelOk(s, cfg) && MetAgain(s, cfg, x)
    ensures MetAgain(After(s, cfg, actions), cfg, x)
    decreases |actions|
  {
    if actions != [] {
      NextKeepsChannel(s, cfg, actions[0]);
      StepKeepsMetAgain(s, cfg, actions[0], x);
      MetAgainLasts(Next(s, cfg, actions[0]), cfg, actions[1..], x);
    }
  }

  /** The order of the query after the oldest link has become the newest. */
  lemma OldestBecomesNewest(rows: seq<LinkRow>, cfg: Config, at: Time)
    requires cfg.byTime && rows != [] && ByTime(rows) && forall j :: 0 <= j < |rows| ==> rows[j].lastUpdated < at
    ensures QueryIds(rows, cfg) == Ids(rows)
    ensures QueryIds(rows[0 := rows[0].(lastUpdated := at)], cfg) == Ids(rows)[1..] + [rows[0].id]
  {
    var newest := rows[0].(lastUpdated := at);
    var rows' := rows[0 := newest];
    SortedStays(rows);
    assert rows'[1..] == rows[1..];
    SortedStays(rows[1..]);
    NewestGoesLast(newest, rows[1..]);
    assert SortByTime(rows') == rows[1..] + [newest];
  }

  /**
    Paging by last_updated, as the plain SQL repository does, is not safe against the workers' own
    writes: in a pass that returns nil, one worker's write to the first link of the first page makes
    the walk miss the link behind that page and process the first one twice, although nothing is removed.
   */
  lemma PagingByTimeSkips(rows: seq<LinkRow>, nextId: LinkId, cfg: Config, at: Time) returns (rest: seq<Action>)
    requires 0 < cfg.batchSize < |rows| && cfg.fetchers > 0 && cfg.byTime && ByTime(rows)
    requires forall j :: 0 <= j < |rows| ==> rows[j].lastUpdated < at && rows[j].id < nextId
    requires forall i, j :: 0 <= i < j < |rows| ==> rows[i].id != rows[j].id
    ensures Undisturbed(rest) && Possible(Initial(rows, nextId, false), cfg, [Begin, QueryOk, Touch(0, at)] + rest)
    ensures var s := After(Initial(rows, nextId, false), cfg, [Begin, QueryOk, Touch(0, at)] + rest);
            && s.pc == Returned(true)
            && !Processed(s, rows[cfg.batchSize].id)
            && multiset(LinksOf(s.taken))[rows[0].id] >= 2
  {
    rest := FirstPageThen(rows, nextId, cfg, Touch(0, at));
    var s3 := Next(AtFirstPage(rows, nextId, cfg), cfg, Touch(0, at));
    var x, first := rows[cfg.batchSize].id, rows[0].id;
    OldestBecomesNewest(rows, cfg, at);
    assert s3.rows == rows[0 := rows[0].(lastUpdated := at)];
    TouchedFirstPage(rows, s3, cfg);
    MissedForever(s3, cfg, rest, x);
    MetAgainLasts(s3, cfg, rest, first);
    FinishedProcesses(After(s3, cfg, rest), cfg, x);
  }

  lemma TouchedFirstPage(rows: seq<LinkRow>, s: World, cfg: Config)
    requires 0 < cfg.batchSize < |rows| && forall i, j :: 0 <= i < j < |rows| ==> rows[i].id != rows[j].id
    requires s.pc == Sending(Ids(rows)[..cfg.batchSize], 0) && s.offset == 0 && s.enqueued == []
    requires QueryIds(s.rows, cfg) == Ids(rows)[1..] + [rows[0].id] && rows[cfg.batchSize].id < s.nextId
    ensures Missed(s, cfg, rows[cfg.batchSize].id)
    ensures MetAgain(s, cfg, rows[0].id)
  {
    var ids := QueryIds(s.rows, cfg);
    assert Given(s) == Ids(rows)[..cfg.batchSize];
    assert Given(s)[0] == rows[0].id;
    assert ids[|rows| - 1] == rows[0].id;
    assert forall j :: cfg.batchSize <= j < |rows| - 1 ==> ids[j] == rows[j + 1].id;
  }
}
