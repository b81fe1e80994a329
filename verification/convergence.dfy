/**
  Repeated polling of one link over a fixed set of events: when it falls silent, and how often
  each event is enqueued.
 */
module Convergence {
  import opened Schema
  import opened Grouping
  import opened Polling

  /** What a fetcher may return: exactly the source's events strictly after `since`, in any order. */
  ghost predicate Fetches(source: seq<Event>, since: Time, fetched: seq<Event>) {
    multiset(fetched) == multiset(Fresh(source, since))
  }

  /** last_updated after a pass without failures: the time of the last event fetched. */
  ghost function SinceAfter(since: Time, fetched: seq<Event>): Time {
    if fetched == [] then since else fetched[|fetched|-1].at
  }

  /** A sequence of failure-free passes, each fetching after what the one before it stored. */
  ghost predicate Passes(source: seq<Event>, since: Time, passes: seq<seq<Event>>)
    decreases |passes|
  {
    passes == [] ||
    (Fetches(source, since, passes[0]) && Passes(source, SinceAfter(since, passes[0]), passes[1..]))
  }

  ghost function SinceAfterAll(since: Time, passes: seq<seq<Event>>): Time
    decreases |passes|
  {
    if passes == [] then since else SinceAfterAll(SinceAfter(since, passes[0]), passes[1..])
  }

  /** How many times an event is fetched over all passes. */
  ghost function TimesFetched(passes: seq<seq<Event>>, e: Event): nat
    decreases |passes|
  {
    if passes == [] then 0 else multiset(passes[0])[e] + TimesFetched(passes[1..], e)
  }

  /** The distinct times of the events that are still to come. */
  ghost function TimesAfter(source: seq<Event>, since: Time): set<Time> {
    set e | e in source && e.at > since :: e.at
  }

  lemma FetchedIff(source: seq<Event>, since: Time, fetched: seq<Event>, e: Event)
    requires Fetches(source, since, fetched)
    ensures e in fetched <==> e in source && e.at > since
    ensures multiset(fetched)[e] == if e.at > since then multiset(source)[e] else 0
  {
    FreshIff(source, since, e);
    assert e in fetched <==> multiset(fetched)[e] > 0;
    assert e in source <==> multiset(source)[e] > 0;
  }

  /** A pass of processLink in which no transaction fails is a pass in the sense used here. */
  lemma {:induction false} FaultFreePass(p: Pipe, link: PolledLink, chats: seq<ChatId>,
                                         fetched: seq<Event>, faults: nat -> TxFault)
    requires Valid(p.store) && chats != [] && fetched != []
    requires forall i :: faults(i) == NoFault
    ensures var p' := ProcessEvents(p, link, chats, fetched, faults);
            var l := FindLink(p'.store, link.url);
            && p'.outbox == p.outbox + UpdatesFor(link, chats, fetched)
            && l.Some? && p'.store.links[l.value].lastUpdated == SinceAfter(link.lastUpdated, fetched)
  {
    CommitAccounting(p, link, chats, fetched, faults);
    AllCommitted(chats, fetched, faults);
  }

  lemma {:induction false} AllCommitted(chats: seq<ChatId>, events: seq<Event>, faults: nat -> TxFault)
    requires forall i :: faults(i) == NoFault
    ensures Committed(chats, events, faults) == events
  {
    if events != [] { AllCommitted(chats, events[..|events|-1], faults); }
  }

  /** last_updated strictly rises on each non-empty pass, and one distinct time at least is used up. */
  lemma NonEmptyPassRises(source: seq<Event>, since: Time, fetched: seq<Event>)
    requires Fetches(source, since, fetched) && fetched != []
    ensures SinceAfter(since, fetched) > since
    ensures TimesAfter(source, SinceAfter(since, fetched)) < TimesAfter(source, since)
    ensures |TimesAfter(source, SinceAfter(since, fetched))| < |TimesAfter(source, since)|
  {
    var last := fetched[|fetched|-1];
    FetchedIff(source, since, fetched, last);
    var before, after := TimesAfter(source, since), TimesAfter(source, last.at);
    assert last.at in before && last.at !in after;
    assert after <= before - {last.at};
    SubsetSize(after, before - {last.at});
  }

  lemma {:induction false} SubsetSize(a: set<Time>, b: set<Time>)
    requires a <= b
    ensures |a| <= |b|
  {
    if a != {} {
      assert (forall x :: x !in a) ==> a == {};
      var x :| x in a;
      SubsetSize(a - {x}, b - {x});
    }
  }

  lemma NothingLeftIff(source: seq<Event>, since: Time)
    ensures Fresh(source, since) == [] <==> TimesAfter(source, since) == {}
  {
    if Fresh(source, since) != [] {
      var e := Fresh(source, since)[0];
      FetchedIff(source, since, Fresh(source, since), e);
      assert e.at in TimesAfter(source, since);
    } else {
      forall e | e in source ensures e.at <= since {
        FetchedIff(source, since, Fresh(source, since), e);
      }
    }
  }

  /**
    Nothing is left to fetch after as many passes as there are distinct event times, whatever the
    order in each pass.
   */
  lemma {:induction false} PassesFallSilent(source: seq<Event>, since: Time, passes: seq<seq<Event>>)
    requires Passes(source, since, passes)
    requires |passes| >= |TimesAfter(source, since)|
    ensures Fresh(source, SinceAfterAll(since, passes)) == []
    decreases |passes|
  {
    NothingLeftIff(source, since);
    if passes != [] {
      var since' := SinceAfter(since, passes[0]);
      if passes[0] != [] {
        NonEmptyPassRises(source, since, passes[0]);
      } else {
        FreshOfEmptyFetch(source, since);
      }
      PassesFallSilent(source, since', passes[1..]);
    }
  }

  lemma FreshOfEmptyFetch(source: seq<Event>, since: Time)
    requires Fetches(source, since, [])
    ensures Fresh(source, since) == []
    ensures TimesAfter(source, since) == {}
  {
    var newer := Fresh(source, since);
    assert |multiset(newer)| == |newer|;
    assert multiset(newer) == multiset{};
    NothingLeftIff(source, since);
  }

  /** Once nothing is later than `since`, no pass fetches anything. */
  lemma {:induction false} SilenceLasts(source: seq<Event>, since: Time, passes: seq<seq<Event>>, e: Event)
    requires Passes(source, since, passes) && Fresh(source, since) == []
    ensures TimesFetched(passes, e) == 0
    decreases |passes|
  {
    if passes != [] {
      assert passes[0] == [] by {
        assert |multiset(passes[0])| == |multiset(Fresh(source, since))|;
      }
      SilenceLasts(source, since, passes[1..], e);
    }
  }

  /** Every newer event is fetched at least once, namely by the first pass; an older one never. */
  lemma {:induction false} FetchedAtLeastOnce(source: seq<Event>, since: Time, passes: seq<seq<Event>>, e: Event)
    requires Passes(source, since, passes) && passes != []
    ensures e.at > since ==> TimesFetched(passes, e) >= multiset(source)[e]
    ensures e.at <= since ==> TimesFetched(passes, e) == 0
    decreases |passes|
  {
    FetchedIff(source, since, passes[0], e);
    if passes[0] != [] { NonEmptyPassRises(source, since, passes[0]); }
    if e.at <= since && passes[1..] != [] {
      FetchedAtLeastOnce(source, SinceAfter(since, passes[0]), passes[1..], e);
    }
  }

  /** The last event fetched is one of the newest. */
  ghost predicate EndsWithNewest(fetched: seq<Event>) {
    forall e :: e in fetched ==> e.at <= fetched[|fetched|-1].at
  }

  /**
    Over any two or more passes every newer event is fetched exactly as
    often as it occurs if and only if the first pass ends with a newest event.
   */
  lemma FetchedOnceIff(source: seq<Event>, since: Time, passes: seq<seq<Event>>)
    requires Passes(source, since, passes) && |passes| >= 2
    ensures (forall e: Event :: e.at > since ==> TimesFetched(passes, e) == multiset(source)[e])
            <==> EndsWithNewest(passes[0])
  {
    var first, rest := passes[0], passes[1..];
    var since' := SinceAfter(since, first);
    if EndsWithNewest(first) {
      NewestMeansSilence(source, since, first);
      forall e: Event | e.at > since ensures TimesFetched(passes, e) == multiset(source)[e] {
        FetchedIff(source, since, first, e);
        SilenceLasts(source, since', rest, e);
      }
    } else {
      var e :| e in first && e.at > first[|first|-1].at;
      FetchedIff(source, since, first, e);
      FetchedIff(source, since', rest[0], e);
      assert TimesFetched(passes, e) >= 2 * multiset(source)[e];
      assert multiset(source)[e] > 0;
    }
  }

  lemma NewestMeansSilence(source: seq<Event>, since: Time, fetched: seq<Event>)
    requires Fetches(source, since, fetched) && EndsWithNewest(fetched)
    ensures Fresh(source, SinceAfter(since, fetched)) == []
  {
    var since' := SinceAfter(since, fetched);
    if fetched != [] { NonEmptyPassRises(source, since, fetched); }
    var left := Fresh(source, since');
    assert left != [] ==> left[0] in left;
    forall e | e in left ensures false {
      FetchedIff(source, since', left, e);
      FetchedIff(source, since, fetched, e);
    }
  }

  /** A nondecreasing order ends with a newest event, so it is enough for exactly-once. */
  lemma SortedFetchedOnce(source: seq<Event>, since: Time, passes: seq<seq<Event>>, e: Event)
    requires Passes(source, since, passes) && passes != [] && e.at > since
    requires forall i, j :: 0 <= i < j < |passes[0]| ==> passes[0][i].at <= passes[0][j].at
    ensures TimesFetched(passes, e) == multiset(source)[e]
  {
    SortedEndsWithNewest(passes[0]);
    NewestMeansSilence(source, since, passes[0]);
    FetchedIff(source, since, passes[0], e);
    SilenceLasts(source, SinceAfter(since, passes[0]), passes[1..], e);
  }

  lemma SortedEndsWithNewest(fetched: seq<Event>)
    requires forall i, j :: 0 <= i < j < |fetched| ==> fetched[i].at <= fetched[j].at
    ensures EndsWithNewest(fetched)
  {
  }

  // ---------------------------------------------------------------- runs of the pipeline

  /** One pass without failures over the link: its subscriptions at the time, and what was fetched. */
  datatype Round = Round(subs: seq<Subscription>, fetched: seq<Event>)

  /** The link as the next pass reads it from the table. */
  ghost function StoredLink(p: Pipe, url: string): PolledLink
    requires FindLink(p.store, url).Some?
  {
    var id := FindLink(p.store, url).value;
    PolledLink(id, url, p.store.links[id].lastUpdated)
  }

  ghost function Polled(p: Pipe, url: string, r: Round): Pipe
    requires FindLink(p.store, url).Some?
  {
    LinkProcessed(p, StoredLink(p, url), Some(r.subs), true, Some(r.fetched), true, i => NoFault)
  }

  /** Every round finds subscribers; the others move the stored time but have nobody to tell. */
  ghost predicate Subscribed(rounds: seq<Round>) {
    forall i :: 0 <= i < |rounds| ==> rounds[i].subs != []
  }

  /** Each round fetches after the time that the round before it has stored. */
  ghost predicate IsRun(p: Pipe, url: string, source: seq<Event>, rounds: seq<Round>)
    decreases |rounds|
  {
    FindLink(p.store, url).Some? &&
    (rounds == [] ||
     (&& Fetches(source, StoredLink(p, url).lastUpdated, rounds[0].fetched)
      && IsRun(Polled(p, url, rounds[0]), url, source, rounds[1..])))
  }

  ghost function AfterRun(p: Pipe, url: string, source: seq<Event>, rounds: seq<Round>): Pipe
    requires IsRun(p, url, source, rounds)
    decreases |rounds|
  {
    if rounds == [] then p else AfterRun(Polled(p, url, rounds[0]), url, source, rounds[1..])
  }

  ghost function PassesOf(rounds: seq<Round>): seq<seq<Event>> {
    seq(|rounds|, i requires 0 <= i < |rounds| => rounds[i].fetched)
  }

  /** All events of the run, in the order fetched. */
  ghost function AllFetched(rounds: seq<Round>): seq<Event>
    decreases |rounds|
  {
    if rounds == [] then [] else rounds[0].fetched + AllFetched(rounds[1..])
  }

  /** Row by row, the outbox rows gained are the updates of the events, each to some list of chats. */
  ghost predicate RowsOf(link: PolledLink, gained: seq<Update>, events: seq<Event>) {
    |gained| == |events| &&
    forall k :: 0 <= k < |gained| ==> gained[k].chats != [] && gained[k] == UpdateFor(link, gained[k].chats, events[k])
  }

  /** What the outbox has gained between two states is one row for each of the events, in order. */
  ghost predicate Gained(p: Pipe, p': Pipe, url: string, events: seq<Event>) {
    && FindLink(p.store, url).Some? && p.outbox <= p'.outbox
    && RowsOf(StoredLink(p, url), p'.outbox[|p.outbox|..], events)
  }

  lemma RoundIs(p: Pipe, url: string, r: Round)
    requires Valid(p.store) && FindLink(p.store, url).Some?
    ensures var p' := Polled(p, url, r);
            && Valid(p'.store) && FindLink(p'.store, url) == FindLink(p.store, url)
            && StoredLink(p', url).lastUpdated == SinceAfter(StoredLink(p, url).lastUpdated, r.fetched)
            && p'.outbox == p.outbox +
                 (if r.subs == [] then [] else UpdatesFor(StoredLink(p, url), ChatsOf(r.subs), r.fetched))
  {
    var link, chats := StoredLink(p, url), ChatsOf(r.subs);
    assert Polled(p, url, r) == ProcessEvents(p, link, chats, r.fetched, i => NoFault);
    CommitAccounting(p, link, chats, r.fetched, i => NoFault);
    AllCommitted(chats, r.fetched, i => NoFault);
  }

  lemma GainedJoin(p: Pipe, p1: Pipe, p': Pipe, url: string, r: Round, events: seq<Event>)
    requires FindLink(p.store, url).Some? && FindLink(p1.store, url) == FindLink(p.store, url) && r.subs != []
    requires p1.outbox == p.outbox + UpdatesFor(StoredLink(p, url), ChatsOf(r.subs), r.fetched)
    requires Gained(p1, p', url, events)
    ensures Gained(p, p', url, r.fetched + events)
  {
    var first, rest := UpdatesFor(StoredLink(p, url), ChatsOf(r.subs), r.fetched), p'.outbox[|p1.outbox|..];
    assert p'.outbox[|p.outbox|..] == first + rest;
    var link := StoredLink(p, url);
    assert forall k :: 0 <= k < |first| ==> (first + rest)[k] == UpdateFor(link, ChatsOf(r.subs), r.fetched[k]);
  }

  lemma {:induction false} RunStores(p: Pipe, url: string, source: seq<Event>, rounds: seq<Round>)
    requires Valid(p.store) && IsRun(p, url, source, rounds)
    ensures var p', since := AfterRun(p, url, source, rounds), StoredLink(p, url).lastUpdated;
            && Valid(p'.store) && FindLink(p'.store, url) == FindLink(p.store, url)
            && Passes(source, since, PassesOf(rounds))
            && StoredLink(p', url).lastUpdated == SinceAfterAll(since, PassesOf(rounds))
    decreases |rounds|
  {
    if rounds != [] {
      RoundIs(p, url, rounds[0]);
      RunStores(Polled(p, url, rounds[0]), url, source, rounds[1..]);
      assert PassesOf(rounds)[1..] == PassesOf(rounds[1..]);
    }
  }

  lemma {:induction false} RunGains(p: Pipe, url: string, source: seq<Event>, rounds: seq<Round>)
    requires Valid(p.store) && IsRun(p, url, source, rounds) && Subscribed(rounds)
    ensures Gained(p, AfterRun(p, url, source, rounds), url, AllFetched(rounds))
    decreases |rounds|
  {
    if rounds == [] {
      assert p.outbox[|p.outbox|..] == [];
    } else {
      var p1 := Polled(p, url, rounds[0]);
      RoundIs(p, url, rounds[0]);
      RunGains(p1, url, source, rounds[1..]);
      GainedJoin(p, p1, AfterRun(p, url, source, rounds), url, rounds[0], AllFetched(rounds[1..]));
    }
  }

  /**
    A run is a sequence of passes: it ends with the stored time those passes lead to, and, if every
    pass finds subscribers, the outbox gains exactly one row for each event fetched, in order.
   */
  lemma RunIs(p: Pipe, url: string, source: seq<Event>, rounds: seq<Round>)
    requires Valid(p.store) && IsRun(p, url, source, rounds)
    ensures var p', since := AfterRun(p, url, source, rounds), StoredLink(p, url).lastUpdated;
            && Valid(p'.store) && FindLink(p'.store, url) == FindLink(p.store, url)
            && Passes(source, since, PassesOf(rounds))
            && StoredLink(p', url).lastUpdated == SinceAfterAll(since, PassesOf(rounds))
            && (Subscribed(rounds) ==> Gained(p, p', url, AllFetched(rounds)))
  {
    RunStores(p, url, source, rounds);
    if Subscribed(rounds) { RunGains(p, url, source, rounds); }
  }

  lemma {:induction false} FetchedCounts(rounds: seq<Round>, e: Event)
    ensures multiset(AllFetched(rounds))[e] == TimesFetched(PassesOf(rounds), e)
    decreases |rounds|
  {
    if rounds != [] {
      assert PassesOf(rounds)[1..] == PassesOf(rounds[1..]);
      FetchedCounts(rounds[1..], e);
    }
  }

  /** The rows gained are one per occurrence of each event later than `since`, and no others. */
  ghost predicate OncePerEvent(source: seq<Event>, since: Time, events: seq<Event>) {
    forall e: Event :: multiset(events)[e] == if e.at > since then multiset(source)[e] else 0
  }

  /** A round that fetches nothing changes nothing. */
  lemma {:induction false} EmptyRoundsRest(p: Pipe, url: string, source: seq<Event>, rounds: seq<Round>)
    requires IsRun(p, url, source, rounds) && AllFetched(rounds) == []
    ensures AfterRun(p, url, source, rounds) == p
    decreases |rounds|
  {
    if rounds != [] {
      assert Polled(p, url, rounds[0]) == p;
      EmptyRoundsRest(p, url, source, rounds[1..]);
    }
  }

  /**
    Polling falls silent within as many passes as there are distinct event times later than the time
    stored at first, whatever the order in each pass and whoever is subscribed: no later pass changes
    the tables or adds a row to the outbox.
   */
  lemma PollingFallsSilent(p: Pipe, url: string, source: seq<Event>, rounds: seq<Round>, more: seq<Round>)
    requires Valid(p.store) && IsRun(p, url, source, rounds)
    requires |rounds| >= |TimesAfter(source, StoredLink(p, url).lastUpdated)|
    requires IsRun(AfterRun(p, url, source, rounds), url, source, more)
    ensures AfterRun(AfterRun(p, url, source, rounds), url, source, more) == AfterRun(p, url, source, rounds)
  {
    var q := AfterRun(p, url, source, rounds);
    RunIs(p, url, source, rounds);
    PassesFallSilent(source, StoredLink(p, url).lastUpdated, PassesOf(rounds));
    RunIs(q, url, source, more);
    if AllFetched(more) != [] {
      var e := AllFetched(more)[0];
      assert multiset(AllFetched(more))[e] > 0;
      FetchedCounts(more, e);
      SilenceLasts(source, StoredLink(q, url).lastUpdated, PassesOf(more), e);
    }
    EmptyRoundsRest(q, url, source, more);
  }

  /**
    Over any run with subscribers the outbox gains exactly one row per fetch of an event: at least one per occurrence
    of each event later than the time stored at first, and none for any other event.
   */
  lemma EnqueuedAtLeastOnce(p: Pipe, url: string, source: seq<Event>, rounds: seq<Round>, e: Event)
    requires Valid(p.store) && IsRun(p, url, source, rounds) && rounds != [] && Subscribed(rounds)
    ensures Gained(p, AfterRun(p, url, source, rounds), url, AllFetched(rounds))
    ensures e.at > StoredLink(p, url).lastUpdated ==> multiset(AllFetched(rounds))[e] >= multiset(source)[e]
    ensures e.at <= StoredLink(p, url).lastUpdated ==> multiset(AllFetched(rounds))[e] == 0
  {
    RunIs(p, url, source, rounds);
    FetchedCounts(rounds, e);
    FetchedAtLeastOnce(source, StoredLink(p, url).lastUpdated, PassesOf(rounds), e);
  }

  /**
    Exactly-once: over any run of two or more passes the outbox gains exactly one row per occurrence
    of each later event, and no other row, if and only if the first pass ends with a newest event.
   */
  lemma ExactlyOnceIff(p: Pipe, url: string, source: seq<Event>, rounds: seq<Round>)
    requires Valid(p.store) && IsRun(p, url, source, rounds) && |rounds| >= 2 && Subscribed(rounds)
    ensures Gained(p, AfterRun(p, url, source, rounds), url, AllFetched(rounds))
    ensures OncePerEvent(source, StoredLink(p, url).lastUpdated, AllFetched(rounds))
            <==> EndsWithNewest(rounds[0].fetched)
  {
    var since := StoredLink(p, url).lastUpdated;
    RunIs(p, url, source, rounds);
    FetchedOnceIff(source, since, PassesOf(rounds));
    forall e: Event
      ensures multiset(AllFetched(rounds))[e] == TimesFetched(PassesOf(rounds), e)
      ensures e.at <= since ==> TimesFetched(PassesOf(rounds), e) == 0
    {
      FetchedCounts(rounds, e);
      FetchedAtLeastOnce(source, since, PassesOf(rounds), e);
    }
  }

  /** A first pass in nondecreasing order is enough for it, over any number of passes. */
  lemma SortedExactlyOnce(p: Pipe, url: string, source: seq<Event>, rounds: seq<Round>)
    requires Valid(p.store) && IsRun(p, url, source, rounds) && rounds != [] && Subscribed(rounds)
    requires var first := rounds[0].fetched; forall i, j :: 0 <= i < j < |first| ==> first[i].at <= first[j].at
    ensures Gained(p, AfterRun(p, url, source, rounds), url, AllFetched(rounds))
    ensures OncePerEvent(source, StoredLink(p, url).lastUpdated, AllFetched(rounds))
  {
    var since := StoredLink(p, url).lastUpdated;
    RunIs(p, url, source, rounds);
    forall e: Event
      ensures multiset(AllFetched(rounds))[e] == if e.at > since then multiset(source)[e] else 0
    {
      FetchedCounts(rounds, e);
      if e.at > since {
        SortedFetchedOnce(source, since, PassesOf(rounds), e);
      } else {
        FetchedAtLeastOnce(source, since, PassesOf(rounds), e);
      }
    }
  }

  // ---------------------------------------------------------------- a fetcher without the strict filter

  /** Times are in microseconds, as PostgreSQL stores them; the StackOverflow API takes whole seconds. */
  const SECOND := 1_000_000

  function WholeSecond(t: Time): Time {
    t - t % SECOND
  }

  /** What the request's fromdate lets through: that bound is inclusive and rounded down. */
  function FromDate(events: seq<Event>, since: Time): seq<Event> {
    if events == [] then []
    else
      FromDate(events[..|events|-1], since)
      + if events[|events|-1].at >= WholeSecond(since) then [events[|events|-1]] else []
  }

  /** One fetch from StackOverflow: answers are filtered again locally, comments are not and come last. */
  datatype Replies = Replies(answers: seq<Event>, comments: seq<Event>) {
    function All(): seq<Event> {
      answers + comments
    }
  }

  ghost predicate FetchesReplies(answers: seq<Event>, comments: seq<Event>, since: Time, r: Replies) {
    Fetches(answers, since, r.answers) && multiset(r.comments) == multiset(FromDate(comments, since))
  }

  /** One pass without failures over a StackOverflow link. */
  datatype ReplyRound = ReplyRound(subs: seq<Subscription>, replies: Replies)

  ghost function PolledReplies(p: Pipe, url: string, r: ReplyRound): Pipe
    requires FindLink(p.store, url).Some?
  {
    Polled(p, url, Round(r.subs, r.replies.All()))
  }

  ghost predicate IsReplyRun(p: Pipe, url: string, answers: seq<Event>, comments: seq<Event>, rounds: seq<ReplyRound>)
    decreases |rounds|
  {
    FindLink(p.store, url).Some? &&
    (rounds == [] ||
     (&& FetchesReplies(answers, comments, StoredLink(p, url).lastUpdated, rounds[0].replies)
      && IsReplyRun(PolledReplies(p, url, rounds[0]), url, answers, comments, rounds[1..])))
  }

  ghost function AfterReplyRun(p: Pipe, url: string, answers: seq<Event>, comments: seq<Event>,
                               rounds: seq<ReplyRound>): Pipe
    requires IsReplyRun(p, url, answers, comments, rounds)
    decreases |rounds|
  {
    if rounds == [] then p
    else AfterReplyRun(PolledReplies(p, url, rounds[0]), url, answers, comments, rounds[1..])
  }

  lemma {:induction false} FromDateIff(events: seq<Event>, since: Time, e: Event)
    ensures multiset(FromDate(events, since))[e] == if e.at >= WholeSecond(since) then multiset(events)[e] else 0
  {
    if events != [] {
      FromDateIff(events[..|events|-1], since, e);
      assert events == events[..|events|-1] + [events[|events|-1]];
    }
  }

  /** A comment that was let through once is let through again after it has become last_updated. */
  lemma CommentsRepeat(comments: seq<Event>, since: Time, fetched: seq<Event>)
    requires multiset(fetched) == multiset(FromDate(comments, since)) && fetched != []
    ensures FromDate(comments, fetched[|fetched|-1].at) != []
  {
    var last := fetched[|fetched|-1];
    assert last in multiset(fetched);
    FromDateIff(comments, since, last);
    FromDateIff(comments, last.at, last);
    assert multiset(FromDate(comments, last.at))[last] > 0;
  }

  /** Nothing earlier is let through later. */
  lemma {:induction false} FromDateShrinks(comments: seq<Event>, early: Time, late: Time)
    requires early <= late && FromDate(comments, early) == []
    ensures FromDate(comments, late) == []
  {
    if comments != [] { FromDateShrinks(comments[..|comments|-1], early, late); }
  }

  lemma SameSize(a: seq<Event>, b: seq<Event>)
    requires multiset(a) == multiset(b)
    ensures a == [] <==> b == []
  {
    assert |multiset(a)| == |a| && |multiset(b)| == |b|;
  }

  lemma CommentsComeLast(since: Time, r: Replies)
    ensures r.comments != [] ==> SinceAfter(since, r.All()) == r.comments[|r.comments|-1].at
    ensures r.comments == [] ==> r.All() == r.answers
  {
  }

  lemma PassNeverFalls(source: seq<Event>, since: Time, fetched: seq<Event>)
    requires Fetches(source, since, fetched)
    ensures since <= SinceAfter(since, fetched)
  {
    if fetched != [] { NonEmptyPassRises(source, since, fetched); }
  }

  /** One pass: it either meets comments, and will again, or is a pass over the answers alone. */
  lemma OneReplyPass(answers: seq<Event>, comments: seq<Event>, since: Time, r: Replies)
    requires FetchesReplies(answers, comments, since, r)
    ensures var since' := SinceAfter(since, r.All());
            && (FromDate(comments, since) != [] <==> FromDate(comments, since') != [])
            && (FromDate(comments, since) == [] ==> r.All() == r.answers)
  {
    SameSize(r.comments, FromDate(comments, since));
    CommentsComeLast(since, r);
    if r.comments != [] {
      CommentsRepeat(comments, since, r.comments);
    } else {
      PassNeverFalls(answers, since, r.answers);
      FromDateShrinks(comments, since, SinceAfter(since, r.answers));
    }
  }

  /** Nothing is left to fetch from the source. */
  ghost predicate NoReplies(answers: seq<Event>, comments: seq<Event>, since: Time) {
    Fresh(answers, since) == [] && FromDate(comments, since) == []
  }

  lemma ReplyRoundIs(p: Pipe, url: string, r: ReplyRound)
    requires Valid(p.store) && FindLink(p.store, url).Some?
    ensures var p' := PolledReplies(p, url, r);
            && Valid(p'.store) && FindLink(p'.store, url).Some?
            && StoredLink(p', url).lastUpdated == SinceAfter(StoredLink(p, url).lastUpdated, r.replies.All())
  {
    RoundIs(p, url, Round(r.subs, r.replies.All()));
  }

  /**
    Polling a StackOverflow question over fixed answers and comments: after as many failure-free
    passes as there are distinct later answer times, nothing is left to fetch if and only if no comment
    was let through at the start; otherwise every pass, however late, fetches some comment again.
   */
  lemma {:induction false} RepliesFallSilentIff(p: Pipe, url: string, answers: seq<Event>, comments: seq<Event>,
                                                rounds: seq<ReplyRound>)
    requires Valid(p.store) && IsReplyRun(p, url, answers, comments, rounds)
    requires |rounds| >= |TimesAfter(answers, StoredLink(p, url).lastUpdated)|
    ensures var p' := AfterReplyRun(p, url, answers, comments, rounds);
            && FindLink(p'.store, url).Some?
            && (NoReplies(answers, comments, StoredLink(p', url).lastUpdated) <==>
                FromDate(comments, StoredLink(p, url).lastUpdated) == [])
    decreases |rounds|
  {
    var since := StoredLink(p, url).lastUpdated;
    if rounds == [] {
      NothingLeftIff(answers, since);
    } else {
      OneReplyPass(answers, comments, since, rounds[0].replies);
      ReplyRoundIs(p, url, rounds[0]);
      if FromDate(comments, since) != [] {
        CommentsNeverEnd(PolledReplies(p, url, rounds[0]), url, answers, comments, rounds[1..]);
      } else {
        AnswersRunOut(answers, since, rounds[0].replies.answers);
        RepliesFallSilentIff(PolledReplies(p, url, rounds[0]), url, answers, comments, rounds[1..]);
      }
    }
  }

  /** A pass over the answers uses up a distinct time, unless none is left. */
  lemma AnswersRunOut(answers: seq<Event>, since: Time, fetched: seq<Event>)
    requires Fetches(answers, since, fetched)
    ensures |TimesAfter(answers, SinceAfter(since, fetched))| <= |TimesAfter(answers, since)|
    ensures |TimesAfter(answers, since)| > 0 ==>
      |TimesAfter(answers, SinceAfter(since, fetched))| < |TimesAfter(answers, since)|
  {
    if fetched == [] { FreshOfEmptyFetch(answers, since); } else { NonEmptyPassRises(answers, since, fetched); }
  }

  /** Once a comment is let through, one is after any number of passes. */
  lemma {:induction false} CommentsNeverEnd(p: Pipe, url: string, answers: seq<Event>, comments: seq<Event>,
                                            rounds: seq<ReplyRound>)
    requires Valid(p.store) && IsReplyRun(p, url, answers, comments, rounds)
    requires FromDate(comments, StoredLink(p, url).lastUpdated) != []
    ensures var p' := AfterReplyRun(p, url, answers, comments, rounds);
            && FindLink(p'.store, url).Some?
            && FromDate(comments, StoredLink(p', url).lastUpdated) != []
    decreases |rounds|
  {
    if rounds != [] {
      OneReplyPass(answers, comments, StoredLink(p, url).lastUpdated, rounds[0].replies);
      ReplyRoundIs(p, url, rounds[0]);
      CommentsNeverEnd(PolledReplies(p, url, rounds[0]), url, answers, comments, rounds[1..]);
    }
  }
}
