/**
  From a fetched event to Kafka: the rows that one pass of processLink commits, followed through
  the outbox until the relay is done with them.
 */
module EndToEnd {
  import opened Schema
  import opened Grouping
  import opened Polling
  import Outbox
  import Delivery

  /** The notifier's outbox rows: the topic is fixed and the payload is the encoded update. */
  function Messages(topic: string, encode: Update -> string, updates: seq<Update>): (ms: seq<Delivery.Message>)
    ensures |ms| == |updates|
    ensures forall i :: 0 <= i < |updates| ==> ms[i] == Delivery.Message(topic, encode(updates[i]))
  {
    seq(|updates|, i requires 0 <= i < |updates| => Delivery.Message(topic, encode(updates[i])))
  }

  /**
    What the relay owes each row: one acknowledged send, or every try used up, or no try if it cannot
    be serialised.
   */
  ghost predicate Settled(b: Outbox.Box, cfg: Outbox.Config, id: nat)
    requires id < |b.rows|
  {
    var row := b.rows[id];
    || (row.status == Outbox.Sent && Delivery.Acks(b.log, id) == 1 && Delivery.Fails(b.log, id) < Delivery.Tries(cfg))
    || (row.status == Outbox.Failed && Delivery.Acks(b.log, id) == 0
        && Delivery.Fails(b.log, id) == if cfg.encodes(row.payload) then Delivery.Tries(cfg) else 0)
  }

  lemma {:induction false} EnqueueAllRow(b: Outbox.Box, added: seq<Delivery.Message>, n: nat)
    requires n < |added|
    ensures Delivery.EnqueueAll(b, added).rows[|b.rows| + n]
         == Outbox.Row(added[n].topic, added[n].payload, Outbox.Pending, 0)
    decreases n
  {
    var b1 := Outbox.Enqueue(b, added[0].topic, added[0].payload);
    if n > 0 { EnqueueAllRow(b1, added[1..], n - 1); }
  }

  lemma {:induction false} TurnsKeepPayload(b: Outbox.Box, cfg: Outbox.Config, turns: seq<Delivery.Turn>, id: nat)
    requires id < |b.rows|
    ensures var rows := Delivery.AfterTurns(b, cfg, turns).rows;
            id < |rows| && rows[id].topic == b.rows[id].topic && rows[id].payload == b.rows[id].payload
    decreases |turns|
  {
    if turns != [] {
      var e := Delivery.EnqueueAll(b, turns[0].added);
      Outbox.PassRow(e, cfg, turns[0].fates, id);
      TurnsKeepPayload(Delivery.TurnOf(b, cfg, turns[0]), cfg, turns[1..], id);
    }
  }

  /** The passes within which the drain bound lets a row leave the queue. */
  function DrainPasses(b: Outbox.Box, cfg: Outbox.Config, id: nat): int
    requires cfg.limit > 0 && id < |b.rows|
  {
    (Outbox.Ahead(b.rows, cfg, id) / cfg.limit + 1) * Delivery.Tries(cfg)
  }

  /** A row that has not been sent before starts with exact counts. */
  lemma NewRowIsExact(b: Outbox.Box, cfg: Outbox.Config, added: seq<Delivery.Message>, n: nat)
    requires Delivery.LogWithin(b) && n < |added|
    ensures Delivery.RowExact(Delivery.EnqueueAll(b, added), cfg, |b.rows| + n)
  {
    EnqueueAllRow(b, added, n);
    Delivery.NoStrayCounts(b.log, |b.rows| + n);
  }

  /** A row of the topic with exact counts that has left the queue is settled. */
  lemma LeftIsSettled(b: Outbox.Box, cfg: Outbox.Config, id: nat)
    requires id < |b.rows| && Delivery.RowExact(b, cfg, id)
    requires b.rows[id].topic == cfg.topic && !Outbox.Queued(b.rows[id], cfg)
    ensures Settled(b, cfg, id)
  {
  }

  /** The chats that GetByLinkID finds in the database's answer. */
  function ChatsRead(link: PolledLink, rows: seq<Row>): seq<ChatId> {
    ChatsOf(Grouped(ByLink(link.id), rows))
  }

  /** One link's pass: what was read of it, what was fetched for it, and which transactions failed. */
  datatype Poll = Poll(link: PolledLink, rows: seq<Row>, events: seq<Event>, faults: nat -> TxFault) {
    function Committed(): seq<Event> {
      Polling.Committed(ChatsRead(link, rows), events, faults)
    }

    /** The update that the n-th committed event becomes. */
    function Update(n: nat): (u: Polling.Update)
      requires n < |Committed()|
      ensures u.linkId == link.id && u.url == link.url
      ensures u.author == Committed()[n].author && u.description == Committed()[n].description
    {
      UpdateFor(link, ChatsRead(link, rows), Committed()[n])
    }

    ghost function After(p: Pipe): Pipe {
      LinkProcessed(p, link, SubsRead(link, Some(rows)), true, Some(events), true, faults)
    }
  }

  /** The outbox after the pass, whatever transactions failed. */
  ghost function AfterPolling(b: Outbox.Box, cfg: Outbox.Config, encode: Update -> string,
                              p: Pipe, poll: Poll): Outbox.Box
    requires |p.outbox| <= |poll.After(p).outbox|
  {
    Delivery.EnqueueAll(b, Messages(cfg.topic, encode, poll.After(p).outbox[|p.outbox|..]))
  }

  /** A subscribed link's pass adds one row for each committed event. */
  lemma PollGains(p: Pipe, s: Store, poll: Poll)
    requires Valid(s) && IsLeftJoin(s, ByLink(poll.link.id), poll.rows) && HasSubscriber(s.subs, poll.link.id)
    ensures poll.After(p).outbox ==
      p.outbox + UpdatesFor(poll.link, ChatsRead(poll.link, poll.rows), poll.Committed())
  {
    ChatsAreSubscribers(s, poll.link.id, poll.rows);
    var k :| k in s.subs && k.link == poll.link.id;
    assert k == SubKey(k.chat, poll.link.id);
    assert k.chat in ChatsRead(poll.link, poll.rows);
    OutboxAccounting(p, poll.link, ChatsRead(poll.link, poll.rows), poll.events, poll.faults);
  }

  /** Exactly the subscribers of the link in that store, each once and in order of id. */
  ghost predicate ToAllSubscribers(u: Update, s: Store, l: LinkId) {
    && (forall c :: c in u.chats <==> SubKey(c, l) in s.subs)
    && (forall i, j :: 0 <= i < j < |u.chats| ==> u.chats[i] < u.chats[j])
  }

  /**
    The n-th event whose transaction commits is the n-th row gained, and its update goes to exactly
    the chats that were subscribed in the store `s` in which the pass looked them up.
   */
  lemma CommittedEventQueued(b: Outbox.Box, cfg: Outbox.Config, encode: Update -> string,
                             p: Pipe, s: Store, poll: Poll, n: nat)
    requires Valid(s) && IsLeftJoin(s, ByLink(poll.link.id), poll.rows) && HasSubscriber(s.subs, poll.link.id)
    requires n < |poll.Committed()|
    ensures |p.outbox| <= |poll.After(p).outbox|
    ensures ToAllSubscribers(poll.Update(n), s, poll.link.id)
    ensures var q := AfterPolling(b, cfg, encode, p, poll);
            && |q.rows| == |b.rows| + |poll.Committed()|
            && q.rows[|b.rows| + n] == Outbox.Row(cfg.topic, encode(poll.Update(n)), Outbox.Pending, 0)
  {
    PollGains(p, s, poll);
    ChatsAreSubscribers(s, poll.link.id, poll.rows);
    var gained := poll.After(p).outbox[|p.outbox|..];
    assert gained == UpdatesFor(poll.link, ChatsRead(poll.link, poll.rows), poll.Committed());
    EnqueueAllRow(b, Messages(cfg.topic, encode, gained), n);
  }

  /**
    End to end, from any outbox whatever crashes and lost writes it has been through, for any failing
    transactions while polling and any failing sends while relaying: each committed event has its own
    row, which carries its update to exactly the link's subscribers and is settled after as many passes
    as the drain bound says, whatever else is queued meanwhile.
   */
  lemma CommittedEventSettled(b: Outbox.Box, cfg: Outbox.Config, encode: Update -> string,
                              p: Pipe, s: Store, poll: Poll, n: nat, q: Outbox.Box, turns: seq<Delivery.Turn>)
    requires Delivery.LogWithin(b) && cfg.limit > 0 && Delivery.AllHealthy(turns)
    requires Valid(s) && IsLeftJoin(s, ByLink(poll.link.id), poll.rows) && HasSubscriber(s.subs, poll.link.id)
    requires n < |poll.Committed()|
    requires |p.outbox| <= |poll.After(p).outbox| && q == AfterPolling(b, cfg, encode, p, poll)
    requires |b.rows| + n < |q.rows|
    requires |turns| >= DrainPasses(q, cfg, |b.rows| + n)
    ensures ToAllSubscribers(poll.Update(n), s, poll.link.id)
    ensures var done, id := Delivery.AfterTurns(q, cfg, turns), |b.rows| + n;
            id < |done.rows| && done.rows[id].payload == encode(poll.Update(n)) && Settled(done, cfg, id)
  {
    CommittedEventQueued(b, cfg, encode, p, s, poll, n);
    PolledRowSettles(b, cfg, encode, p, poll, n, q, turns);
  }

  lemma PolledRowSettles(b: Outbox.Box, cfg: Outbox.Config, encode: Update -> string,
                         p: Pipe, poll: Poll, n: nat, q: Outbox.Box, turns: seq<Delivery.Turn>)
    requires Delivery.LogWithin(b) && cfg.limit > 0 && Delivery.AllHealthy(turns)
    requires n < |poll.Committed()| && |p.outbox| <= |poll.After(p).outbox|
    requires q == AfterPolling(b, cfg, encode, p, poll)
    requires |q.rows| == |b.rows| + |poll.Committed()|
    requires q.rows[|b.rows| + n].topic == cfg.topic
    requires |turns| >= DrainPasses(q, cfg, |b.rows| + n)
    ensures var done, id := Delivery.AfterTurns(q, cfg, turns), |b.rows| + n;
            id < |done.rows| && done.rows[id].payload == q.rows[id].payload && Settled(done, cfg, id)
  {
    PolledRowIsExact(b, cfg, encode, p, poll, n);
    NewRowSettles(q, cfg, |b.rows| + n, turns);
  }

  lemma PolledRowIsExact(b: Outbox.Box, cfg: Outbox.Config, encode: Update -> string, p: Pipe, poll: Poll, n: nat)
    requires Delivery.LogWithin(b) && |p.outbox| + n < |poll.After(p).outbox|
    ensures Delivery.RowExact(AfterPolling(b, cfg, encode, p, poll), cfg, |b.rows| + n)
  {
    NewRowIsExact(b, cfg, Messages(cfg.topic, encode, poll.After(p).outbox[|p.outbox|..]), n);
  }

  lemma NewRowSettles(q: Outbox.Box, cfg: Outbox.Config, id: nat, turns: seq<Delivery.Turn>)
    requires cfg.limit > 0 && Delivery.AllHealthy(turns) && id < |q.rows|
    requires Delivery.RowExact(q, cfg, id) && q.rows[id].topic == cfg.topic
    requires |turns| >= DrainPasses(q, cfg, id)
    ensures var done := Delivery.AfterTurns(q, cfg, turns);
            id < |done.rows| && done.rows[id].payload == q.rows[id].payload && Settled(done, cfg, id)
  {
    Delivery.DrainBound(q, cfg, turns, id);
    Delivery.RowStaysExact(q, cfg, turns, id);
    TurnsKeepPayload(q, cfg, turns, id);
    LeftIsSettled(Delivery.AfterTurns(q, cfg, turns), cfg, id);
  }
}
