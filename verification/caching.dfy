/**
  The read-through cache in front of the subscription service, run sequentially: with every
  invalidation succeeding it is indistinguishable from the service it wraps.
 */
module Caching {
  import opened Schema
  import opened Grouping
  import opened Subscriptions

  /** What may go wrong on the cache's side of one call; `expired` are the entries whose time is up before it. */
  datatype Weather = Weather(expired: set<ChatId>, readFails: bool, setFails: bool, invalidateFails: bool)

  datatype Cached = Cached(store: Store, cache: map<ChatId, seq<TrackedView>>)
  datatype CachedOutcome = CachedOutcome(state: Cached, reply: Reply)

  datatype Call = Call(op: Op, faults: Faults, weather: Weather)

  // ---------------------------------------------------------------- one call as a function

  ghost function CachedStep(cs: Cached, call: Call): CachedOutcome {
    var Call(op, f, w) := call;
    var live := cs.cache - w.expired;
    if op.List? && !w.readFails && op.chat in live then
      CachedOutcome(Cached(cs.store, live), Listed(live[op.chat]))
    else
      var o := Step(cs.store, op, f);
      if o.reply.Failed? || op.Register? || op.PollSave? then
        CachedOutcome(Cached(o.store, live), o.reply)
      else if op.List? then
        CachedOutcome(Cached(o.store, if w.setFails then live else live[op.chat := o.reply.links]), o.reply)
      else if w.invalidateFails then
        CachedOutcome(Cached(o.store, live), if op.Delete? then Failed(CacheError) else o.reply)
      else
        CachedOutcome(Cached(o.store, live - {op.chat}), o.reply)
  }

  /** The entry of the chat, if present, is the true list of a registered chat. */
  ghost predicate TrueEntry(cs: Cached, c: ChatId) {
    c in cs.cache ==> c in cs.store.chats && cs.cache[c] == ListOf(cs.store, c)
  }

  ghost predicate Coherent(cs: Cached) {
    forall c :: c in cs.cache ==> TrueEntry(cs, c)
  }

  /** The list is answered from the cache. */
  predicate Hits(cs: Cached, call: Call) {
    call.op.List? && !call.weather.readFails && call.op.chat in cs.cache && call.op.chat !in call.weather.expired
  }

  ghost predicate Succeeds(cs: Cached, call: Call) {
    !Step(cs.store, call.op, call.faults).reply.Failed?
  }

  /**
    The wrapped service's reply, with two exceptions: a list served from the cache may hide a
    database failure, and deleting a chat reports a lost invalidation although the chat is gone.
   */
  ghost predicate Matches(s: Store, call: Call, reply: Reply) {
    var plain := Step(s, call.op, call.faults).reply;
    if call.op.Delete? && call.weather.invalidateFails && plain == Done then reply == Failed(CacheError)
    else
      || reply == plain
      || (&& call.op.List? && call.op.chat in s.chats
          && plain == Failed(DatabaseError) && reply == Listed(ListOf(s, call.op.chat)))
  }

  lemma CachedStepMatches(cs: Cached, call: Call)
    requires Valid(cs.store)
    requires Hits(cs, call) ==> TrueEntry(cs, call.op.chat)
    ensures Matches(cs.store, call, CachedStep(cs, call).reply)
  {
  }

  /** The cache never changes what is stored, not even when its own calls fail. */
  lemma CachedStepStore(cs: Cached, call: Call)
    ensures CachedStep(cs, call).state.store == Step(cs.store, call.op, call.faults).store
  {
  }

  // ---------------------------------------------------------------- lost invalidations

  /** The call changes what the chat tracks, and the invalidation that follows is lost. */
  ghost predicate Loses(cs: Cached, call: Call, c: ChatId) {
    Touches(call.op, c) && !call.op.Register? && Succeeds(cs, call) && call.weather.invalidateFails
  }

  /** The call drops the chat's entry or sets it anew. */
  ghost predicate Renews(cs: Cached, call: Call, c: ChatId) {
    || c in call.weather.expired
    || (Touches(call.op, c) && !call.op.Register? && Succeeds(cs, call) && !call.weather.invalidateFails)
    || (call.op == List(c) && !Hits(cs, call) && Succeeds(cs, call) && !call.weather.setFails)
  }

  /** The chat has lost an invalidation and its entry has neither gone nor been set since. */
  ghost predicate Outstanding(s: Store, calls: seq<Call>, c: ChatId) {
    calls != [] &&
    var before, last := calls[..|calls|-1], calls[|calls|-1];
    var cs := CachedAfter(Cached(s, map[]), before);
    Loses(cs, last, c) || (!Renews(cs, last, c) && Outstanding(s, before, c))
  }

  /** An entry that goes or is set anew is true afterwards. */
  lemma RenewedEntryIsTrue(cs: Cached, call: Call, c: ChatId)
    requires !Loses(cs, call, c) && Renews(cs, call, c)
    ensures TrueEntry(CachedStep(cs, call).state, c)
  {
  }

  /** An entry that stays is true afterwards, because no call changes another chat's list. */
  lemma KeptEntryIsTrue(cs: Cached, call: Call, c: ChatId)
    requires Valid(cs.store) && !Renews(cs, call, c) && TrueEntry(cs, c)
    requires !Touches(call.op, c) || !Succeeds(cs, call)
    ensures TrueEntry(CachedStep(cs, call).state, c)
  {
    OtherChatsUntouched(cs.store, call.op, call.faults, c);
    CachedStepStore(cs, call);
    KeptEntryStays(cs, call, c);
  }

  /** Neither a failed call nor one on another chat touches an entry, nor does a list that is not set. */
  lemma KeptEntryStays(cs: Cached, call: Call, c: ChatId)
    requires !Renews(cs, call, c) && (!Touches(call.op, c) || !Succeeds(cs, call))
    ensures var cs' := CachedStep(cs, call).state;
            && (c in cs'.cache <==> c in cs.cache)
            && (c in cs.cache ==> cs'.cache[c] == cs.cache[c])
  {
  }

  /** Only a new chat can be registered, and it has no entry yet. */
  lemma RegisteringIsNew(cs: Cached, call: Call, c: ChatId)
    requires Touches(call.op, c) && call.op.Register? && Succeeds(cs, call) && TrueEntry(cs, c)
    ensures c !in CachedStep(cs, call).state.cache
  {
  }

  /** Invalidating only the chat of the call is enough to keep every entry true. */
  lemma CachedStepKeepsEntry(cs: Cached, call: Call, c: ChatId)
    requires Valid(cs.store) && !Loses(cs, call, c)
    requires TrueEntry(cs, c) || Renews(cs, call, c)
    ensures Valid(CachedStep(cs, call).state.store)
    ensures TrueEntry(CachedStep(cs, call).state, c)
  {
    StepKeepsValid(cs.store, call.op, call.faults);
    CachedStepStore(cs, call);
    if Renews(cs, call, c) {
      RenewedEntryIsTrue(cs, call, c);
    } else if Touches(call.op, c) && Succeeds(cs, call) {
      RegisteringIsNew(cs, call, c);
    } else {
      KeptEntryIsTrue(cs, call, c);
    }
  }

  // ---------------------------------------------------------------- whole runs

  ghost function StoreAfter(s: Store, calls: seq<Call>): Store {
    if calls == [] then s
    else
      var before := StoreAfter(s, calls[..|calls|-1]);
      var last := calls[|calls|-1];
      Step(before, last.op, last.faults).store
  }

  ghost function CachedAfter(cs: Cached, calls: seq<Call>): Cached {
    if calls == [] then cs
    else CachedStep(CachedAfter(cs, calls[..|calls|-1]), calls[|calls|-1]).state
  }

  /**
    Cache refinement: over any sequence of calls on any chats, with entries expiring at will and
    cache reads, sets and invalidations failing at will, the tables are those of the service alone,
    and call number n answers what the service would answer, unless it is served an entry for which
    a lost invalidation is outstanding.
   */
  lemma CacheRefinesService(s: Store, calls: seq<Call>, n: nat)
    requires Valid(s) && n < |calls|
    ensures var cs := CachedAfter(Cached(s, map[]), calls[..n]);
            && cs.store == StoreAfter(s, calls[..n])
            && (!(Hits(cs, calls[n]) && Outstanding(s, calls[..n], calls[n].op.chat)) ==>
                  Matches(StoreAfter(s, calls[..n]), calls[n], CachedStep(cs, calls[n]).reply))
  {
    var cs := CachedAfter(Cached(s, map[]), calls[..n]);
    var c := if calls[n].op.PollSave? then 0 else calls[n].op.chat;
    RunKeepsEntry(s, calls[..n], c);
    if !(Hits(cs, calls[n]) && Outstanding(s, calls[..n], c)) {
      CachedStepMatches(cs, calls[n]);
    }
  }

  lemma {:induction false} RunKeepsEntry(s: Store, calls: seq<Call>, c: ChatId)
    requires Valid(s)
    ensures var cs := CachedAfter(Cached(s, map[]), calls);
            cs.store == StoreAfter(s, calls) && Valid(cs.store) && (TrueEntry(cs, c) || Outstanding(s, calls, c))
  {
    if calls != [] {
      var front, last := calls[..|calls|-1], calls[|calls|-1];
      var cs := CachedAfter(Cached(s, map[]), front);
      RunKeepsEntry(s, front, c);
      StepKeepsValid(cs.store, last.op, last.faults);
      CachedStepStore(cs, last);
      if !Outstanding(s, calls, c) {
        CachedStepKeepsEntry(cs, last, c);
      }
    }
  }

  /** With no invalidation lost, every entry present is at all times the true list of a registered chat. */
  lemma RunKeepsCoherent(s: Store, calls: seq<Call>)
    requires Valid(s)
    requires forall i :: 0 <= i < |calls| ==> !calls[i].weather.invalidateFails
    ensures Coherent(CachedAfter(Cached(s, map[]), calls))
  {
    var cs := CachedAfter(Cached(s, map[]), calls);
    forall c | c in cs.cache ensures TrueEntry(cs, c) {
      RunKeepsEntry(s, calls, c);
      NothingOutstanding(s, calls, c);
    }
  }

  lemma {:induction false} NothingOutstanding(s: Store, calls: seq<Call>, c: ChatId)
    requires forall i :: 0 <= i < |calls| ==> !calls[i].weather.invalidateFails
    ensures !Outstanding(s, calls, c)
  {
    if calls != [] { NothingOutstanding(s, calls[..|calls|-1], c); }
  }

  // ---------------------------------------------------------------- what the cache is for

  /**
    A list that was read and set is served from then on, whatever the database does, until its entry
    goes or is set anew.
   */
  lemma ListIsCached(cs: Cached, first: Call, between: seq<Call>, again: Call)
    requires first.op.List? && again.op == first.op
    requires Succeeds(cs, first) && !Hits(cs, first) && !first.weather.setFails
    requires !again.weather.readFails && again.op.chat !in again.weather.expired
    requires NoneRenews(CachedStep(cs, first).state, between, first.op.chat)
    ensures CachedStep(CachedFrom(CachedStep(cs, first).state, between), again).reply == CachedStep(cs, first).reply
    ensures CachedStep(cs, first).reply == Listed(ListOf(cs.store, first.op.chat))
  {
    var c := first.op.chat;
    var cs1 := CachedStep(cs, first).state;
    assert c in cs1.cache && cs1.cache[c] == ListOf(cs.store, c);
    EntryLasts(cs1, between, c);
  }

  ghost predicate NoneRenews(cs: Cached, calls: seq<Call>, c: ChatId)
    decreases |calls|
  {
    calls == [] || (!Renews(cs, calls[0], c) && NoneRenews(CachedStep(cs, calls[0]).state, calls[1..], c))
  }

  lemma {:induction false} EntryLasts(cs: Cached, calls: seq<Call>, c: ChatId)
    requires c in cs.cache && NoneRenews(cs, calls, c)
    ensures c in CachedFrom(cs, calls).cache && CachedFrom(cs, calls).cache[c] == cs.cache[c]
    decreases |calls|
  {
    if calls != [] {
      UnrenewedEntryStays(cs, calls[0], c);
      EntryLasts(CachedStep(cs, calls[0]).state, calls[1..], c);
    }
  }

  lemma UnrenewedEntryStays(cs: Cached, call: Call, c: ChatId)
    requires c in cs.cache && !Renews(cs, call, c)
    ensures c in CachedStep(cs, call).state.cache && CachedStep(cs, call).state.cache[c] == cs.cache[c]
  {
    if !Touches(call.op, c) || !Succeeds(cs, call) { KeptEntryStays(cs, call, c); }
  }

  /** An entry appears only when its own chat's list is read and set, and goes only when it is due to. */
  lemma EntryIff(cs: Cached, call: Call, c: ChatId)
    ensures c in CachedStep(cs, call).state.cache <==>
            || (call.op == List(c) && !Hits(cs, call) && Succeeds(cs, call) && !call.weather.setFails)
            || (c in cs.cache && !Renews(cs, call, c))
  {
    if !Renews(cs, call, c) && (!Touches(call.op, c) || !Succeeds(cs, call)) { KeptEntryStays(cs, call, c); }
  }

  // ---------------------------------------------------------------- a lost invalidation is always felt

  /** Every successful change of a chat alters its list or unregisters it. */
  lemma ChangeAltersList(s: Store, op: Op, f: Faults, c: ChatId)
    requires Valid(s) && Touches(op, c) && !op.Register? && !Step(s, op, f).reply.Failed?
    ensures var s' := Step(s, op, f).store; c in s'.chats ==> ListOf(s', c) != ListOf(s, c)
  {
    match op {
      case Delete(_) =>
      case Add(_, url, tags, now, _) =>
        var added := AddLink(s, c, url, tags, now, true, f);
        var v := ViewOf(added.reply.link);
        AddedLinkListed(s, c, url, tags, now, f, v);
        ListedIff(s, c, v);
      case Remove(_, url) =>
        var l := FindLink(s, url).value;
        var v := TrackedView(l, url, TagsOf(s, SubKey(c, l)));
        ListedIff(s, c, v);
        RemovedLinkUnlisted(s, c, url, f, v);
    }
  }

  ghost predicate WrongEntry(cs: Cached, c: ChatId) {
    c in cs.cache && !TrueEntry(cs, c)
  }

  /** The call neither changes the chat nor lets go of its entry. */
  ghost predicate LeavesEntry(cs: Cached, call: Call, c: ChatId) {
    && (!Touches(call.op, c) || !Succeeds(cs, call)) && c !in call.weather.expired
    && (call.op == List(c) ==> Hits(cs, call))
  }

  ghost predicate AllLeaveEntry(cs: Cached, calls: seq<Call>, c: ChatId)
    decreases |calls|
  {
    calls == [] || (LeavesEntry(cs, calls[0], c) && AllLeaveEntry(CachedStep(cs, calls[0]).state, calls[1..], c))
  }

  ghost function CachedFrom(cs: Cached, calls: seq<Call>): Cached
    decreases |calls|
  {
    if calls == [] then cs else CachedFrom(CachedStep(cs, calls[0]).state, calls[1..])
  }

  lemma WrongEntryStays(cs: Cached, call: Call, c: ChatId)
    requires Valid(cs.store) && WrongEntry(cs, c) && LeavesEntry(cs, call, c)
    ensures Valid(CachedStep(cs, call).state.store) && WrongEntry(CachedStep(cs, call).state, c)
  {
    StepKeepsValid(cs.store, call.op, call.faults);
    CachedStepStore(cs, call);
    OtherChatsUntouched(cs.store, call.op, call.faults, c);
  }

  lemma {:induction false} WrongEntryLasts(cs: Cached, calls: seq<Call>, c: ChatId)
    requires Valid(cs.store) && WrongEntry(cs, c) && AllLeaveEntry(cs, calls, c)
    ensures WrongEntry(CachedFrom(cs, calls), c)
    decreases |calls|
  {
    if calls != [] {
      WrongEntryStays(cs, calls[0], c);
      WrongEntryLasts(CachedStep(cs, calls[0]).state, calls[1..], c);
    }
  }

  /**
    A change whose invalidation is lost is always felt: from any state with a true entry, and after
    any calls that neither change the chat again nor let go of its entry, each list served from the
    cache is one that the service would not answer.
   */
  lemma LostInvalidationWrong(cs: Cached, change: Call, between: seq<Call>, list: Call)
    requires Valid(cs.store) && list.op.List?
    requires list.op.chat in cs.cache && list.op.chat !in change.weather.expired && TrueEntry(cs, list.op.chat)
    requires Loses(cs, change, list.op.chat)
    requires AllLeaveEntry(CachedStep(cs, change).state, between, list.op.chat)
    requires Hits(CachedFrom(CachedStep(cs, change).state, between), list)
    ensures var late := CachedFrom(CachedStep(cs, change).state, between);
            !Matches(late.store, list, CachedStep(late, list).reply)
  {
    var c := list.op.chat;
    var cs' := CachedStep(cs, change).state;
    StepKeepsValid(cs.store, change.op, change.faults);
    CachedStepStore(cs, change);
    ChangeAltersList(cs.store, change.op, change.faults, c);
    WrongEntryLasts(cs', between, c);
    WrongEntryServed(CachedFrom(cs', between), list);
  }

  lemma WrongEntryServed(cs: Cached, list: Call)
    requires Hits(cs, list) && WrongEntry(cs, list.op.chat)
    ensures !Matches(cs.store, list, CachedStep(cs, list).reply)
  {
    var c := list.op.chat;
    assert CachedStep(cs, list).reply == Listed(cs.cache[c]);
    assert Step(cs.store, list.op, list.faults).reply == GetTrackedLinks(cs.store, c, list.faults);
  }

  // ---------------------------------------------------------------- the caching service itself

  ghost function CacheViews(cache: map<ChatId, seq<TrackedLink>>): map<ChatId, seq<TrackedView>> {
    map c | c in cache :: ViewsOf(cache[c])
  }

  class CachingService {
    const service: Service
    const db: Database
    var cache: map<ChatId, seq<TrackedLink>>

    constructor (service: Service)
      ensures this.service == service && db == service.db && cache == map[]
    {
      this.service := service;
      db := service.db;
      cache := map[];
    }

    ghost predicate Ready()
      reads this, db
    {
      db == service.db && db.undo == None && Valid(db.Tables())
    }

    ghost function State(): Cached
      reads this, db
    {
      Cached(db.Tables(), CacheViews(cache))
    }

    method RegisterChat(c: ChatId, f: Faults, w: Weather) returns (r: Reply)
      requires Ready()
      modifies this, db
      ensures Ready() && CachedOutcome(State(), r) == CachedStep(old(State()), Call(Register(c), f, w))
    {
      StepKeepsValid(db.Tables(), Register(c), f);
      Expire(w.expired);
      r := service.RegisterChat(c, f);
    }

    method DeleteChat(c: ChatId, f: Faults, w: Weather) returns (r: Reply)
      requires Ready()
      modifies this, db
      ensures Ready() && CachedOutcome(State(), r) == CachedStep(old(State()), Call(Delete(c), f, w))
    {
      StepKeepsValid(db.Tables(), Delete(c), f);
      Expire(w.expired);
      r := service.DeleteChat(c, f);
      if r.Failed? {
        return;
      }
      var ok := Invalidate(c, w);
      if !ok {
        r := Failed(CacheError);
      }
    }

    method GetTrackedLinks(c: ChatId, rows: seq<Row>, f: Faults, w: Weather) returns (r: Reply, links: seq<TrackedLink>)
      requires Ready() && IsLeftJoin(db.Tables(), ByChat(c), rows)
      modifies this, db
      ensures Ready() && CachedOutcome(State(), r) == CachedStep(old(State()), Call(List(c), f, w))
      ensures r.Listed? ==> r.links == ViewsOf(links)
    {
      Expire(w.expired);
      if !w.readFails && c in cache {
        links := cache[c];
        return Listed(ViewsOf(links)), links;
      }
      r, links := service.GetTrackedLinks(c, rows, f);
      if r.Listed? && !w.setFails {
        SetLinks(c, links);
      }
    }

    /** Entries whose lifetime is over are gone. */
    method Expire(expired: set<ChatId>)
      modifies this`cache
      ensures cache == old(cache) - expired
      ensures CacheViews(cache) == CacheViews(old(cache)) - expired
    {
      cache := cache - expired;
    }

    method SetLinks(c: ChatId, links: seq<TrackedLink>)
      modifies this`cache
      ensures CacheViews(cache) == CacheViews(old(cache))[c := ViewsOf(links)]
    {
      cache := cache[c := links];
    }

    method AddLink(c: ChatId, url: string, tags: seq<string>, now: Time, handled: bool, f: Faults, w: Weather)
      returns (r: Reply)
      requires Ready()
      modifies this, db
      ensures Ready()
      ensures CachedOutcome(State(), r) == CachedStep(old(State()), Call(Add(c, url, tags, now, handled), f, w))
    {
      Expire(w.expired);
      r := service.AddLink(c, url, tags, now, handled, f);
      if !r.Failed? {
        var _ := Invalidate(c, w);
      }
    }

    method RemoveLink(c: ChatId, url: string, f: Faults, w: Weather) returns (r: Reply)
      requires Ready()
      modifies this, db
      ensures Ready() && CachedOutcome(State(), r) == CachedStep(old(State()), Call(Remove(c, url), f, w))
    {
      Expire(w.expired);
      r := service.RemoveLink(c, url, f);
      if !r.Failed? {
        var _ := Invalidate(c, w);
      }
    }

    method Invalidate(c: ChatId, w: Weather) returns (ok: bool)
      modifies this`cache
      ensures ok == !w.invalidateFails
      ensures CacheViews(cache) == if ok then CacheViews(old(cache)) - {c} else CacheViews(old(cache))
    {
      ok := !w.invalidateFails;
      if ok {
        cache := cache - {c};
      }
    }
  }
}
