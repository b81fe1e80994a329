/**
  The update pipeline of one link: fetched events become outbox rows, one transaction an event,
  together with the link's last_updated; and what repeated polling converges to.
 */
module Polling {
  import opened Schema
  import opened Grouping
  import opened Positions

  datatype Event = Event(at: Time, author: string, description: string)
  datatype Update = Update(linkId: LinkId, url: string, author: string, description: string, chats: seq<ChatId>)
  datatype PolledLink = PolledLink(id: LinkId, url: string, lastUpdated: Time)

  /** The tables and the payloads of the outbox rows, oldest first. */
  datatype Pipe = Pipe(store: Store, outbox: seq<Update>)

  /** Where the transaction of one event breaks, if it does. */
  datatype TxFault = NoFault | BeginFails | SendFails | SaveFails | CommitFails

  const CANNOT_HANDLE := "Cannot handle this link yet. Please contact admins if you see this message"
  const CANNOT_FETCH := "couldn't fetch your link :("

  // ---------------------------------------------------------------- processLink as a function

  function UpdateFor(link: PolledLink, chats: seq<ChatId>, e: Event): Update {
    Update(link.id, link.url, e.author, e.description, chats)
  }

  /** Without subscribers nothing is sent, so a send cannot fail. */
  predicate Commits(chats: seq<ChatId>, fault: TxFault) {
    fault == NoFault || (fault == SendFails && chats == [])
  }

  ghost function EventTx(p: Pipe, link: PolledLink, chats: seq<ChatId>, e: Event, fault: TxFault): Pipe {
    var saved := Upsert(p.store, link.url, e.at);
    if Commits(chats, fault) then
      Pipe(saved, if chats == [] then p.outbox else p.outbox + [UpdateFor(link, chats, e)])
    else if fault == CommitFails then p.(store := p.store.(nextId := saved.nextId))
    else p
  }

  ghost function ProcessEvents(p: Pipe, link: PolledLink, chats: seq<ChatId>,
                               events: seq<Event>, faults: nat -> TxFault): Pipe {
    if events == [] then p
    else
      EventTx(ProcessEvents(p, link, chats, events[..|events|-1], faults), link, chats,
              events[|events|-1], faults(|events|-1))
  }

  function ChatsOf(subscriptions: seq<Subscription>): seq<ChatId> {
    seq(|subscriptions|, i requires 0 <= i < |subscriptions| => subscriptions[i].chat)
  }

  /** `subs` and `fetched` are None when the lookup or the fetch fails. */
  ghost function LinkProcessed(p: Pipe, link: PolledLink, subs: Option<seq<Subscription>>, handled: bool,
                               fetched: Option<seq<Event>>, notified: bool, faults: nat -> TxFault): Pipe
  {
    if subs.None? then p
    else
      var chats := ChatsOf(subs.value);
      if !handled then
        if chats != [] && notified then p.(outbox := p.outbox + [Update(0, link.url, "", CANNOT_HANDLE, chats)]) else p
      else if fetched.None? then
        if notified then p.(outbox := p.outbox + [Update(0, link.url, "", CANNOT_FETCH, chats)]) else p
      else ProcessEvents(p, link, chats, fetched.value, faults)
  }

  /** GetByLinkID over the database's answer. */
  function SubsRead(link: PolledLink, rows: Option<seq<Row>>): Option<seq<Subscription>> {
    if rows.None? then None else Some(Grouped(ByLink(link.id), rows.value))
  }

  /** The chats that an update goes to are exactly the link's subscribers, each once, in order of id. */
  lemma ChatsAreSubscribers(s: Store, l: LinkId, rows: seq<Row>)
    requires Valid(s) && IsLeftJoin(s, ByLink(l), rows)
    ensures ChatsOf(Grouped(ByLink(l), rows)) == Ascending(StoredKeys(s, ByLink(l)))
    ensures forall c :: c in ChatsOf(Grouped(ByLink(l), rows)) <==> SubKey(c, l) in s.subs
  {
    var q := ByLink(l);
    JoinKeys(s, q, rows);
    StoredKeysAre(s, q);
    var chats := ChatsOf(Grouped(q, rows));
    forall i: nat | i < |chats| ensures chats[i] == Ascending(StoredKeys(s, q))[i] {
      GroupingInvertsJoin(s, q, rows, i);
    }
    assert forall c :: q.SubOf(c) == SubKey(c, l);
  }

  // ---------------------------------------------------------------- the scrapper's worker

  class Scrapper {
    const db: Database
    var outbox: seq<Update>

    constructor (db: Database)
      ensures this.db == db && outbox == []
    {
      this.db := db;
      outbox := [];
    }

    ghost predicate Ready()
      reads this, db
    {
      db.undo == None && Valid(db.Tables())
    }

    ghost function State(): Pipe
      reads this, db
    {
      Pipe(db.Tables(), outbox)
    }

    /** `rows` is the database's answer to the query by link, or None when the lookup fails. */
    method ProcessLink(link: PolledLink, rows: Option<seq<Row>>, handled: bool,
                       fetched: Option<seq<Event>>, notified: bool, faults: nat -> TxFault)
      requires Ready() && (rows.Some? ==> IsLeftJoin(db.Tables(), ByLink(link.id), rows.value))
      modifies this, db
      ensures Ready()
      ensures State() ==
        LinkProcessed(old(State()), link, SubsRead(link, rows), handled, fetched, notified, faults)
    {
      if rows.None? {
        return;
      }
      var subscriptions := ScanSubscriptions(ByLink(link.id), rows.value);
      var chatIDs := ChatIDs(subscriptions);
      if !handled {
        if |chatIDs| > 0 && notified {
          outbox := outbox + [Update(0, link.url, "", CANNOT_HANDLE, chatIDs)];
        }
        return;
      }
      if fetched.None? {
        if notified {
          outbox := outbox + [Update(0, link.url, "", CANNOT_FETCH, chatIDs)];
        }
        return;
      }
      ProcessAll(link, chatIDs, fetched.value, faults);
    }

    method ChatIDs(subscriptions: seq<Subscription>) returns (chatIDs: seq<ChatId>)
      ensures chatIDs == ChatsOf(subscriptions)
    {
      chatIDs := [];
      for i := 0 to |subscriptions|
        invariant chatIDs == ChatsOf(subscriptions)[..i]
      {
        chatIDs := chatIDs + [subscriptions[i].chat];
      }
    }

    /** The event loop: one transaction an event, and a failed one does not end it. */
    method ProcessAll(link: PolledLink, chatIDs: seq<ChatId>, events: seq<Event>, faults: nat -> TxFault)
      requires Ready()
      modifies this, db
      ensures Ready() && State() == ProcessEvents(old(State()), link, chatIDs, events, faults)
    {
      ghost var start := State();
      for i := 0 to |events|
        invariant Ready()
        invariant State() == ProcessEvents(start, link, chatIDs, events[..i], faults)
      {
        assert events[..i+1][..i] == events[..i];
        ProcessEvent(link, chatIDs, events[i], faults(i));
      }
      assert events[..|events|] == events;
    }

    /** The closure run within one transaction; the outbox row and the link row commit together or not at all. */
    method ProcessEvent(link: PolledLink, chatIDs: seq<ChatId>, event: Event, fault: TxFault)
      requires Ready()
      modifies this, db
      ensures Ready() && State() == EventTx(old(State()), link, chatIDs, event, fault)
    {
      var outboxAtBegin := outbox;
      UpsertKeeps(db.Tables(), link.url, event.at);
      var ok := db.Begin(fault == BeginFails);
      if !ok {
        return;
      }
      if |chatIDs| > 0 {
        if fault == SendFails {
          db.Rollback();
          return;
        }
        outbox := outbox + [UpdateFor(link, chatIDs, event)];
      }
      if fault == SaveFails {
        db.Rollback();
        outbox := outboxAtBegin;
        return;
      }
      var _ := db.SaveLink(link.url, event.at);
      ok := db.Commit(fault == CommitFails);
      if !ok {
        outbox := outboxAtBegin;
      }
    }
  }

  // ---------------------------------------------------------------- commit accounting

  /** The events whose transaction commits, in order. */
  function Committed(chats: seq<ChatId>, events: seq<Event>, faults: nat -> TxFault): seq<Event> {
    if events == [] then []
    else
      Committed(chats, events[..|events|-1], faults)
      + if Commits(chats, faults(|events|-1)) then [events[|events|-1]] else []
  }

  function UpdatesFor(link: PolledLink, chats: seq<ChatId>, events: seq<Event>): seq<Update> {
    seq(|events|, i requires 0 <= i < |events| => UpdateFor(link, chats, events[i]))
  }

  /** The link row a url has after the pass: the time of the last committed event, not of the newest one. */
  ghost predicate LinkFollows(s: Store, s': Store, url: string, committed: seq<Event>) {
    if committed == [] then s'.links == s.links
    else
      var l := FindLink(s', url);
      && l.Some?
      && s'.links[l.value].lastUpdated == committed[|committed|-1].at
      && (FindLink(s, url).Some? ==> l == FindLink(s, url))
      && s'.links - {l.value} == s.links - {l.value}
  }

  /**
    Event commit accounting, for any pattern of failing transactions: the outbox gains exactly one
    row per committed event, in order, and none without subscribers; last_updated is the last
    committed event's time; no other link and no subscription is touched.
   */
  lemma CommitAccounting(p: Pipe, link: PolledLink, chats: seq<ChatId>, events: seq<Event>, faults: nat -> TxFault)
    requires Valid(p.store)
    ensures var p' := ProcessEvents(p, link, chats, events, faults);
            var committed := Committed(chats, events, faults);
            && Valid(p'.store)
            && p'.outbox == p.outbox + (if chats == [] then [] else UpdatesFor(link, chats, committed))
            && LinkFollows(p.store, p'.store, link.url, committed)
            && p'.store.(links := p.store.links, nextId := p.store.nextId) == p.store
  {
    OutboxAccounting(p, link, chats, events, faults);
    StoreAccounting(p, link, chats, events, faults);
  }

  lemma {:induction false} OutboxAccounting(p: Pipe, link: PolledLink, chats: seq<ChatId>,
                                            events: seq<Event>, faults: nat -> TxFault)
    ensures ProcessEvents(p, link, chats, events, faults).outbox ==
            p.outbox + (if chats == [] then [] else UpdatesFor(link, chats, Committed(chats, events, faults)))
  {
    if events != [] {
      var front, e := events[..|events|-1], events[|events|-1];
      OutboxAccounting(p, link, chats, front, faults);
      var before := Committed(chats, front, faults);
      assert UpdatesFor(link, chats, before + [e]) == UpdatesFor(link, chats, before) + [UpdateFor(link, chats, e)];
    }
  }

  lemma {:induction false} StoreAccounting(p: Pipe, link: PolledLink, chats: seq<ChatId>,
                                           events: seq<Event>, faults: nat -> TxFault)
    requires Valid(p.store)
    ensures var p' := ProcessEvents(p, link, chats, events, faults);
            && Valid(p'.store)
            && LinkFollows(p.store, p'.store, link.url, Committed(chats, events, faults))
            && p'.store.(links := p.store.links, nextId := p.store.nextId) == p.store
  {
    if events != [] {
      var front, e := events[..|events|-1], events[|events|-1];
      StoreAccounting(p, link, chats, front, faults);
      var q := ProcessEvents(p, link, chats, front, faults);
      UpsertKeeps(q.store, link.url, e.at);
      if Commits(chats, faults(|events|-1)) {
        UpsertFollows(p.store, q.store, link.url, Committed(chats, front, faults), e);
      } else {
        SequenceOnly(p.store, q.store, link.url, Committed(chats, front, faults));
      }
    }
  }

  /** Ids burnt by the sequence change nothing that LinkFollows looks at. */
  lemma SequenceOnly(s: Store, q: Store, url: string, committed: seq<Event>)
    requires Valid(q) && LinkFollows(s, q, url, committed)
    ensures LinkFollows(s, q.(nextId := q.nextId + 1), url, committed)
  {
    var q' := q.(nextId := q.nextId + 1);
    assert q'.links == q.links;
    if committed != [] {
      var l, l' := FindLink(q, url), FindLink(q', url);
      assert l'.Some? && l'.value == l.value;
    }
  }

  lemma UpsertFollows(s: Store, q: Store, url: string, before: seq<Event>, e: Event)
    requires Valid(s) && Valid(q) && LinkFollows(s, q, url, before)
    ensures LinkFollows(s, Upsert(q, url, e.at), url, before + [e])
  {
    var s' := Upsert(q, url, e.at);
    UpsertKeeps(q, url, e.at);
    var id := if FindLink(q, url).Some? then FindLink(q, url).value else q.nextId;
    assert s'.links[id].url == url;
    assert FindLink(s', url) == Some(id);
    assert s'.links - {id} == q.links - {id};
  }

  /** The transaction meets no fault, or only a failing send when there is nobody to send to. */
  ghost predicate GoesThrough(chats: seq<ChatId>, fault: TxFault) {
    match fault
    case NoFault => true
    case SendFails => chats == []
    case BeginFails => false
    case SaveFails => false
    case CommitFails => false
  }

  ghost function Passing(chats: seq<ChatId>, faults: nat -> TxFault, n: nat): (marks: seq<bool>)
    ensures |marks| == n && forall i :: 0 <= i < n ==> marks[i] == GoesThrough(chats, faults(i))
  {
    if n == 0 then [] else Passing(chats, faults, n - 1) + [GoesThrough(chats, faults(n - 1))]
  }

  lemma {:induction false} CommittedIsFiltered(chats: seq<ChatId>, events: seq<Event>, faults: nat -> TxFault)
    ensures Committed(chats, events, faults) == Filtered(events, Passing(chats, faults, |events|))
  {
    if events != [] {
      CommittedIsFiltered(chats, events[..|events|-1], faults);
      assert Passing(chats, faults, |events|)[..|events|-1] == Passing(chats, faults, |events| - 1);
    }
  }

  /** Which events commit, by position. */
  lemma CommittedPositions(chats: seq<ChatId>, events: seq<Event>, faults: nat -> TxFault) returns (at: seq<nat>)
    ensures Picks(Committed(chats, events, faults), at, events)
    ensures forall i: nat :: i in at <==> i < |events| && GoesThrough(chats, faults(i))
  {
    at := Marked(Passing(chats, faults, |events|));
    CommittedIsFiltered(chats, events, faults);
    FilteredPicks(events, Passing(chats, faults, |events|));
  }

  /** The chats are those of the subscriptions, in their order. */
  ghost predicate GoesTo(u: Update, subs: seq<Subscription>) {
    |u.chats| == |subs| && forall i :: 0 <= i < |subs| ==> u.chats[i] == subs[i].chat
  }

  /**
    What a pass over a link adds to the outbox, in plain terms: for each event whose transaction
    commits, in the order fetched, one row with the link's id and url, the event's author and
    description, and all subscribers; and nothing if there are none.
   */
  lemma RowsGained(p: Pipe, link: PolledLink, subs: seq<Subscription>, events: seq<Event>, notified: bool,
                   faults: nat -> TxFault) returns (at: seq<nat>)
    ensures Ascends(at)
    ensures forall i: nat :: i in at <==> i < |events| && GoesThrough(ChatsOf(subs), faults(i))
    ensures var outbox := LinkProcessed(p, link, Some(subs), true, Some(events), notified, faults).outbox;
            && p.outbox <= outbox
            && |outbox| == |p.outbox| + (if subs == [] then 0 else |at|)
            && forall k :: 0 <= k < |outbox| - |p.outbox| ==>
                 at[k] < |events| && IsUpdate(outbox[|p.outbox| + k], link, events[at[k]], subs)
  {
    var chats := ChatsOf(subs);
    at := CommittedPositions(chats, events, faults);
    OutboxAccounting(p, link, chats, events, faults);
  }

  /** The link's id and url, the event's author and description, and all subscribers. */
  ghost predicate IsUpdate(u: Update, link: PolledLink, e: Event, subs: seq<Subscription>) {
    && u.linkId == link.id && u.url == link.url
    && u.author == e.author && u.description == e.description && GoesTo(u, subs)
  }

  /** A notice: one row without a link id or an author, for the link's url, to all subscribers. */
  ghost predicate Notice(p: Pipe, p': Pipe, url: string, text: string, subs: seq<Subscription>) {
    && p'.store == p.store && |p'.outbox| == |p.outbox| + 1 && p.outbox <= p'.outbox
    && var row := p'.outbox[|p.outbox|];
       row.linkId == 0 && row.url == url && row.author == "" && row.description == text && GoesTo(row, subs)
  }

  /**
    When a pass sends a notice instead: to the subscribers, if any, of a link that no fetcher handles,
    and after a failed fetch in any case; a failed lookup of the subscribers ends the pass.
   */
  lemma Notices(p: Pipe, link: PolledLink, subs: Option<seq<Subscription>>, handled: bool,
                fetched: Option<seq<Event>>, notified: bool, faults: nat -> TxFault)
    requires subs.None? || !handled || fetched.None?
    ensures var p' := LinkProcessed(p, link, subs, handled, fetched, notified, faults);
            if subs.None? || !notified || (!handled && subs.value == []) then p' == p
            else
              Notice(p, p', link.url,
                     if handled then "couldn't fetch your link :("
                     else "Cannot handle this link yet. Please contact admins if you see this message", subs.value)
  {
  }

  /** The strict filter of the fetchers: only what is later than `since`. */
  function Fresh(events: seq<Event>, since: Time): seq<Event> {
    if events == [] then []
    else
      Fresh(events[..|events|-1], since)
      + if events[|events|-1].at > since then [events[|events|-1]] else []
  }

  lemma {:induction false} FreshIff(events: seq<Event>, since: Time, e: Event)
    ensures multiset(Fresh(events, since))[e] == if e.at > since then multiset(events)[e] else 0
  {
    if events != [] {
      FreshIff(events[..|events|-1], since, e);
      assert events == events[..|events|-1] + [events[|events|-1]];
    }
  }

  /** The stored time of a url after a pass, given what it was before: the last committed event's, if any committed. */
  ghost predicate StoredAfter(s: Store, s': Store, url: string, committed: seq<Event>) {
    var l, l' := FindLink(s, url), FindLink(s', url);
    && (l'.Some? <==> l.Some? || committed != [])
    && (l'.Some? ==> s'.links[l'.value].lastUpdated ==
                       if committed == [] then s.links[l.value].lastUpdated else committed[|committed|-1].at)
  }

  lemma StoredFollows(s: Store, s': Store, url: string, committed: seq<Event>)
    requires Valid(s) && Valid(s') && LinkFollows(s, s', url, committed)
    ensures StoredAfter(s, s', url, committed)
  {
    if committed == [] && FindLink(s, url).Some? {
      assert FindLink(s', url).Some?;
    }
  }

  lemma InFreshIff(source: seq<Event>, since: Time, e: Event)
    requires e in source
    ensures e in Fresh(source, since) <==> e.at > since
  {
    FreshIff(source, since, e);
    assert e in Fresh(source, since) <==> multiset(Fresh(source, since))[e] > 0;
    assert multiset(source)[e] > 0;
  }

  /**
    So an event of the source, failed or not, is fetched by the next pass exactly if it is later than
    the last event that committed, or, in a pass where none did, than the time stored before; and
    there is no next pass exactly if the link was deleted meanwhile and no event committed.
   */
  lemma FailedEventRefetchedIff(p: Pipe, link: PolledLink, chats: seq<ChatId>, source: seq<Event>, events: seq<Event>,
                                faults: nat -> TxFault, e: Event)
    requires Valid(p.store) && e in source
    ensures var p' := ProcessEvents(p, link, chats, events, faults);
            var committed := Committed(chats, events, faults);
            var l, l' := FindLink(p.store, link.url), FindLink(p'.store, link.url);
            && (l'.None? <==> l.None? && committed == [])
            && (l'.Some? ==>
                  (e in Fresh(source, p'.store.links[l'.value].lastUpdated) <==>
                   e.at > if committed == [] then p.store.links[l.value].lastUpdated else committed[|committed|-1].at))
  {
    var p' := ProcessEvents(p, link, chats, events, faults);
    StoreAccounting(p, link, chats, events, faults);
    StoredFollows(p.store, p'.store, link.url, Committed(chats, events, faults));
    var l' := FindLink(p'.store, link.url);
    if l'.Some? {
      InFreshIff(source, p'.store.links[l'.value].lastUpdated, e);
    }
  }

  // ---------------------------------------------------------------- the GitHub fetcher

  datatype Issue = Issue(event: Event, isPullRequest: bool)

  function PlainIssues(issues: seq<Issue>): seq<Event> {
    if issues == [] then []
    else
      PlainIssues(issues[..|issues|-1])
      + if issues[|issues|-1].isPullRequest then [] else [issues[|issues|-1].event]
  }

  /** Fetch: the new pull requests, then the new issues that are not pull requests, each in API order. */
  method Fetch(pullRequests: seq<Event>, issues: seq<Issue>, since: Time) returns (updates: seq<Event>)
    ensures updates == Fresh(pullRequests, since) + Fresh(PlainIssues(issues), since)
  {
    var prUpdates := FetchPullRequests(pullRequests, since);
    var issueUpdates := FetchIssues(issues, since);
    updates := prUpdates + issueUpdates;
  }

  method FetchPullRequests(pullRequests: seq<Event>, since: Time) returns (updates: seq<Event>)
    ensures updates == Fresh(pullRequests, since)
  {
    updates := [];
    for i := 0 to |pullRequests|
      invariant updates == Fresh(pullRequests[..i], since)
    {
      assert pullRequests[..i+1][..i] == pullRequests[..i];
      if !(pullRequests[i].at > since) {
        continue;
      }
      updates := updates + [pullRequests[i]];
    }
    assert pullRequests[..|pullRequests|] == pullRequests;
  }

  method FetchIssues(issues: seq<Issue>, since: Time) returns (updates: seq<Event>)
    ensures updates == Fresh(PlainIssues(issues), since)
  {
    updates := [];
    for i := 0 to |issues|
      invariant updates == Fresh(PlainIssues(issues[..i]), since)
    {
      ghost var plain := PlainIssues(issues[..i]);
      assert issues[..i+1][..i] == issues[..i];
      assert PlainIssues(issues[..i+1]) == if issues[i].isPullRequest then plain else plain + [issues[i].event];
      FreshAppend(plain, issues[i].event, since);
      if !(issues[i].event.at > since) {
        assert Fresh(plain + [issues[i].event], since) == Fresh(plain, since);
        continue;
      }
      if issues[i].isPullRequest {
        continue;
      }
      updates := updates + [issues[i].event];
    }
    assert issues[..|issues|] == issues;
  }

  /**
    Fetch returns each pull request, and each issue that is none, as often as it occurs later than
    `since`, and nothing else.
   */
  lemma FetchIsExact(pullRequests: seq<Event>, issues: seq<Issue>, since: Time, e: Event)
    ensures multiset(Fresh(pullRequests, since) + Fresh(PlainIssues(issues), since))[e] ==
            if e.at > since then multiset(pullRequests)[e] + multiset(issues)[Issue(e, false)] else 0
  {
    FreshIff(pullRequests, since, e);
    FreshIff(PlainIssues(issues), since, e);
    PlainCount(issues, e);
  }

  lemma {:induction false} PlainCount(issues: seq<Issue>, e: Event)
    ensures multiset(PlainIssues(issues))[e] == multiset(issues)[Issue(e, false)]
  {
    if issues != [] {
      var front, last := issues[..|issues|-1], issues[|issues|-1];
      PlainCount(front, e);
      assert issues == front + [last];
    }
  }

  ghost function Later(events: seq<Event>, since: Time): (marks: seq<bool>)
    ensures |marks| == |events| && forall i :: 0 <= i < |events| ==> marks[i] == (events[i].at > since)
  {
    if events == [] then [] else Later(events[..|events|-1], since) + [events[|events|-1].at > since]
  }

  lemma {:induction false} FreshIsFiltered(events: seq<Event>, since: Time)
    ensures Fresh(events, since) == Filtered(events, Later(events, since))
  {
    if events != [] {
      FreshIsFiltered(events[..|events|-1], since);
      assert Later(events, since)[..|events|-1] == Later(events[..|events|-1], since);
    }
  }

  /** What the filter keeps, by position: exactly the later events, in the order of the list. */
  lemma FreshPositions(events: seq<Event>, since: Time) returns (at: seq<nat>)
    ensures Picks(Fresh(events, since), at, events)
    ensures forall i: nat :: i in at <==> i < |events| && events[i].at > since
  {
    at := Marked(Later(events, since));
    FreshIsFiltered(events, since);
    FilteredPicks(events, Later(events, since));
  }

  function EventsOf(issues: seq<Issue>): (events: seq<Event>)
    ensures |events| == |issues| && forall i :: 0 <= i < |issues| ==> events[i] == issues[i].event
  {
    seq(|issues|, i requires 0 <= i < |issues| => issues[i].event)
  }

  ghost function Plain(issues: seq<Issue>): (marks: seq<bool>)
    ensures |marks| == |issues| && forall i :: 0 <= i < |issues| ==> marks[i] == !issues[i].isPullRequest
  {
    if issues == [] then [] else Plain(issues[..|issues|-1]) + [!issues[|issues|-1].isPullRequest]
  }

  lemma {:induction false} PlainIsFiltered(issues: seq<Issue>)
    ensures PlainIssues(issues) == Filtered(EventsOf(issues), Plain(issues))
  {
    if issues != [] {
      PlainIsFiltered(issues[..|issues|-1]);
      assert EventsOf(issues)[..|issues|-1] == EventsOf(issues[..|issues|-1]);
      assert Plain(issues)[..|issues|-1] == Plain(issues[..|issues|-1]);
    }
  }

  /** Of the issues exactly the later ones that are no pull requests, in API order. */
  lemma IssuePositions(issues: seq<Issue>, since: Time) returns (at: seq<nat>)
    ensures Picks(Fresh(PlainIssues(issues), since), at, EventsOf(issues))
    ensures forall i: nat :: i in at <==> i < |issues| && !issues[i].isPullRequest && issues[i].event.at > since
  {
    var plain := Marked(Plain(issues));
    PlainIsFiltered(issues);
    FilteredPicks(EventsOf(issues), Plain(issues));
    var later := FreshPositions(PlainIssues(issues), since);
    at := PicksOfPicks(Fresh(PlainIssues(issues), since), later, PlainIssues(issues), plain, EventsOf(issues));
    forall i: nat ensures i in at <==> i < |issues| && !issues[i].isPullRequest && issues[i].event.at > since {
      if i in plain {
        var m :| 0 <= m < |plain| && plain[m] == i;
        assert PlainIssues(issues)[m] == issues[i].event;
      }
    }
  }

  lemma FreshAppend(events: seq<Event>, e: Event, since: Time)
    ensures Fresh(events + [e], since) == Fresh(events, since) + if e.at > since then [e] else []
  {
    assert (events + [e])[..|events|] == events;
  }
}
