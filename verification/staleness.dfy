/**
  The cache under concurrency: readers that miss, read the database and set the entry, and
  writers that commit and invalidate, interleave step by step, and invalidations may be lost.
 */
module Staleness {
  import opened Schema
  import opened Grouping
  import opened Subscriptions

  /** A committed store and the instant of its commit; the last one is the current content. */
  datatype Version = Version(at: Time, store: Store)

  /** A reader between its database read and its cache set. */
  datatype Reading = Reading(chat: ChatId, links: seq<TrackedView>, readAt: Time)

  datatype Entry = Entry(links: seq<TrackedView>, readAt: Time, setAt: Time)
  datatype Served = Served(chat: ChatId, links: seq<TrackedView>, readAt: Time, setAt: Time, at: Time)

  datatype World = World(
    now: Time,
    log: seq<Version>,
    cache: map<ChatId, Entry>,
    readers: map<int, Reading>,
    served: seq<Served>)

  datatype Action =
    | Tick(now: Time)
    | Write(op: Op, faults: Faults)
    | Invalidate(chat: ChatId)
    | Miss(reader: int, chat: ChatId)
    | SetEntry(reader: int)
    | SetFails(reader: int)
    | Hit(chat: ChatId)

  ghost function Current(w: World): Store
    requires w.log != []
  {
    w.log[|w.log|-1].store
  }

  ghost predicate Enabled(w: World, a: Action, ttl: Time) {
    w.log != [] &&
    match a
    case Tick(now) => w.now <= now
    case Write(op, _) => !op.List?
    case Invalidate(_) => true
    case Miss(r, c) => r !in w.readers && c in Current(w).chats
    case SetEntry(r) => r in w.readers
    case SetFails(r) => r in w.readers
    case Hit(c) => c in w.cache && w.now < w.cache[c].setAt + ttl
  }

  ghost function Next(w: World, a: Action, ttl: Time): World
    requires Enabled(w, a, ttl)
  {
    match a
    case Tick(now) => w.(now := now)
    case Write(op, f) => w.(log := w.log + [Version(w.now, Step(Current(w), op, f).store)])
    case Invalidate(c) => w.(cache := w.cache - {c})
    case Miss(r, c) => w.(readers := w.readers[r := Reading(c, ListOf(Current(w), c), w.now)])
    case SetEntry(r) =>
      var d := w.readers[r];
      w.(cache := w.cache[d.chat := Entry(d.links, d.readAt, w.now)], readers := w.readers - {r},
         served := w.served + [Served(d.chat, d.links, d.readAt, w.now, w.now)])
    case SetFails(r) =>
      var d := w.readers[r];
      w.(readers := w.readers - {r},
         served := w.served + [Served(d.chat, d.links, d.readAt, w.now, w.now)])
    case Hit(c) =>
      var e := w.cache[c];
      w.(served := w.served + [Served(c, e.links, e.readAt, e.setAt, w.now)])
  }

  ghost function Start(s: Store, at: Time): World {
    World(at, [Version(at, s)], map[], map[], [])
  }

  /** The interleaving `actions` can happen from `w`. */
  ghost predicate Possible(w: World, actions: seq<Action>, ttl: Time)
    decreases |actions|
  {
    actions == [] || (Enabled(w, actions[0], ttl) && Possible(Next(w, actions[0], ttl), actions[1..], ttl))
  }

  ghost function After(w: World, actions: seq<Action>, ttl: Time): World
    requires Possible(w, actions, ttl)
    decreases |actions|
  {
    if actions == [] then w else After(Next(w, actions[0], ttl), actions[1..], ttl)
  }

  // ---------------------------------------------------------------- bounded staleness

  /** Version number i was the content of the database at instant u. */
  ghost predicate CurrentAt(log: seq<Version>, i: int, u: Time) {
    0 <= i < |log| && log[i].at <= u && (i + 1 < |log| ==> u <= log[i+1].at)
  }

  /** The chat was registered at instant u, and this was its list. */
  ghost predicate TrueAt(log: seq<Version>, c: ChatId, links: seq<TrackedView>, u: Time) {
    exists i :: CurrentAt(log, i, u) && c in log[i].store.chats && links == ListOf(log[i].store, c)
  }

  ghost predicate ReadingSound(w: World, d: Reading) {
    d.readAt <= w.now && TrueAt(w.log, d.chat, d.links, d.readAt)
  }

  ghost predicate EntrySound(w: World, c: ChatId, e: Entry) {
    e.readAt <= e.setAt <= w.now && TrueAt(w.log, c, e.links, e.readAt)
  }

  ghost predicate Sound(w: World, ttl: Time) {
    && w.log != []
    && (forall i :: 0 <= i < |w.log| ==> w.log[i].at <= w.now)
    && (forall r :: r in w.readers ==> ReadingSound(w, w.readers[r]))
    && (forall c :: c in w.cache ==> EntrySound(w, c, w.cache[c]))
    && (forall i :: 0 <= i < |w.served| ==> w.served[i].at <= w.now && WithinBound(w.log, w.served[i], ttl))
  }

  /** The list was true at an instant at most the lifetime plus the read-to-set delay before it was served. */
  ghost predicate WithinBound(log: seq<Version>, v: Served, ttl: Time) {
    exists u :: v.at - ttl - (v.setAt - v.readAt) <= u <= v.at && TrueAt(log, v.chat, v.links, u)
  }

  lemma TrueAtLater(log: seq<Version>, next: Version, c: ChatId, links: seq<TrackedView>, u: Time)
    requires TrueAt(log, c, links, u) && u <= next.at
    ensures TrueAt(log + [next], c, links, u)
  {
    var i :| CurrentAt(log, i, u) && c in log[i].store.chats && links == ListOf(log[i].store, c);
    assert CurrentAt(log + [next], i, u);
  }

  lemma BoundHoldsLater(log: seq<Version>, next: Version, v: Served, ttl: Time)
    requires WithinBound(log, v, ttl) && v.at <= next.at
    ensures WithinBound(log + [next], v, ttl)
  {
    var u :| v.at - ttl - (v.setAt - v.readAt) <= u <= v.at && TrueAt(log, v.chat, v.links, u);
    TrueAtLater(log, next, v.chat, v.links, u);
  }

  lemma WriteKeepsSound(w: World, next: Version, ttl: Time)
    requires Sound(w, ttl) && next.at == w.now
    ensures Sound(w.(log := w.log + [next]), ttl)
  {
    var w' := w.(log := w.log + [next]);
    forall r | r in w.readers ensures ReadingSound(w', w.readers[r]) {
      TrueAtLater(w.log, next, w.readers[r].chat, w.readers[r].links, w.readers[r].readAt);
    }
    forall c | c in w.cache ensures EntrySound(w', c, w.cache[c]) {
      TrueAtLater(w.log, next, c, w.cache[c].links, w.cache[c].readAt);
    }
    forall i | 0 <= i < |w.served| ensures WithinBound(w'.log, w.served[i], ttl) {
      BoundHoldsLater(w.log, next, w.served[i], ttl);
    }
  }

  /** One list is served; the readers can only become fewer, and the cache can only gain the entry served. */
  lemma ServingKeepsSound(w: World, w': World, v: Served, ttl: Time)
    requires ttl >= 0 && Sound(w, ttl) && w' == w.(cache := w'.cache, readers := w'.readers, served := w.served + [v])
    requires v.at == w.now <= v.setAt + ttl && EntrySound(w, v.chat, Entry(v.links, v.readAt, v.setAt))
    requires forall r :: r in w'.readers ==> r in w.readers && w'.readers[r] == w.readers[r]
    requires forall c :: c in w'.cache ==>
      (c in w.cache && w'.cache[c] == w.cache[c]) || (c == v.chat && w'.cache[c] == Entry(v.links, v.readAt, v.setAt))
    ensures Sound(w', ttl)
  {
    assert WithinBound(w.log, v, ttl);
    forall c | c in w'.cache ensures EntrySound(w', c, w'.cache[c]) {
      if c in w.cache && w'.cache[c] == w.cache[c] { assert EntrySound(w, c, w.cache[c]); }
    }
    forall r | r in w'.readers ensures ReadingSound(w', w'.readers[r]) {
      assert ReadingSound(w, w.readers[r]);
    }
  }

  lemma SetKeepsSound(w: World, a: Action, ttl: Time)
    requires ttl >= 0 && Sound(w, ttl) && Enabled(w, a, ttl) && (a.SetEntry? || a.SetFails?)
    ensures Sound(Next(w, a, ttl), ttl)
  {
    var d := w.readers[a.reader];
    assert ReadingSound(w, d);
    ServingKeepsSound(w, Next(w, a, ttl), Served(d.chat, d.links, d.readAt, w.now, w.now), ttl);
  }

  lemma HitKeepsSound(w: World, c: ChatId, ttl: Time)
    requires ttl >= 0 && Sound(w, ttl) && Enabled(w, Hit(c), ttl)
    ensures Sound(Next(w, Hit(c), ttl), ttl)
  {
    var e := w.cache[c];
    assert EntrySound(w, c, e);
    ServingKeepsSound(w, Next(w, Hit(c), ttl), Served(c, e.links, e.readAt, e.setAt, w.now), ttl);
  }

  lemma MissKeepsSound(w: World, r: int, c: ChatId, ttl: Time)
    requires Sound(w, ttl) && Enabled(w, Miss(r, c), ttl)
    ensures Sound(Next(w, Miss(r, c), ttl), ttl)
  {
    var w' := Next(w, Miss(r, c), ttl);
    assert CurrentAt(w.log, |w.log| - 1, w.now);
    forall q | q in w'.readers ensures ReadingSound(w', w'.readers[q]) {
      if q != r { assert ReadingSound(w, w.readers[q]); }
    }
    forall d | d in w'.cache ensures EntrySound(w', d, w'.cache[d]) {
      assert EntrySound(w, d, w.cache[d]);
    }
  }

  /** Time passes or an entry goes. */
  lemma RestKeepsSound(w: World, w': World, ttl: Time)
    requires Sound(w, ttl) && w' == w.(now := w'.now, cache := w'.cache) && w.now <= w'.now
    requires forall c :: c in w'.cache ==> c in w.cache && w'.cache[c] == w.cache[c]
    ensures Sound(w', ttl)
  {
    forall r | r in w'.readers ensures ReadingSound(w', w'.readers[r]) {
      assert ReadingSound(w, w.readers[r]);
    }
    forall c | c in w'.cache ensures EntrySound(w', c, w'.cache[c]) {
      assert EntrySound(w, c, w.cache[c]);
    }
  }

  lemma NextKeepsSound(w: World, a: Action, ttl: Time)
    requires ttl >= 0 && Sound(w, ttl) && Enabled(w, a, ttl)
    ensures Sound(Next(w, a, ttl), ttl)
  {
    match a {
      case Write(op, f) => WriteKeepsSound(w, Version(w.now, Step(Current(w), op, f).store), ttl);
      case Miss(r, c) => MissKeepsSound(w, r, c, ttl);
      case Hit(c) => HitKeepsSound(w, c, ttl);
      case Tick(_) => RestKeepsSound(w, Next(w, a, ttl), ttl);
      case Invalidate(_) => RestKeepsSound(w, Next(w, a, ttl), ttl);
      case _ => SetKeepsSound(w, a, ttl);
    }
  }

  /**
    Bounded staleness: whatever the interleaving, and even if every invalidation is lost, each list
    served was the chat's true list no earlier than the entry's lifetime plus its own read-to-set delay ago.
   */
  lemma BoundedStaleness(s: Store, at: Time, actions: seq<Action>, ttl: Time, n: nat)
    requires ttl >= 0 && Possible(Start(s, at), actions, ttl)
    requires n < |After(Start(s, at), actions, ttl).served|
    ensures var w := After(Start(s, at), actions, ttl); WithinBound(w.log, w.served[n], ttl)
  {
    AfterKeepsSound(Start(s, at), actions, ttl);
  }

  lemma {:induction false} AfterKeepsSound(w: World, actions: seq<Action>, ttl: Time)
    requires ttl >= 0 && Possible(w, actions, ttl) && Sound(w, ttl)
    ensures Sound(After(w, actions, ttl), ttl)
    decreases |actions|
  {
    if actions != [] {
      NextKeepsSound(w, actions[0], ttl);
      AfterKeepsSound(Next(w, actions[0], ttl), actions[1..], ttl);
    }
  }

  // ---------------------------------------------------------------- the bound is reached

  /**
    The race that the sequential refinement rules out: a reader reads, a writer commits a change of
    the list and invalidates, then the reader sets its entry after `delay`.  The old list is still
    served for any time short of the lifetime after that, although no invalidation was lost and the
    list was true at no instant but the one of the read, so neither term of the bound can be dropped.
   */
  lemma StaleForDelayPlusLifetime(s: Store, at: Time, op: Op, f: Faults, c: ChatId, delay: Time, age: Time, ttl: Time)
    requires c in s.chats && !op.List? && 0 <= delay && 0 <= age < ttl
    requires c in Step(s, op, f).store.chats ==> ListOf(Step(s, op, f).store, c) != ListOf(s, c)
    ensures Possible(Start(s, at), Race(op, f, c, at, delay, age), ttl)
    ensures ServesStale(s, Step(s, op, f).store, at, c, delay, age,
                        After(Start(s, at), Race(op, f, c, at, delay, age), ttl))
  {
    OvertakenServesStale(s, Step(s, op, f).store, at, c, delay, age, ttl);
    ReadThenWrite(s, at, op, f, c, Late(c, at, delay, age), ttl);
  }

  ghost function Late(c: ChatId, at: Time, delay: Time, age: Time): seq<Action> {
    [Tick(at + delay), SetEntry(0), Tick(at + delay + age), Hit(c)]
  }

  ghost function Race(op: Op, f: Faults, c: ChatId, at: Time, delay: Time, age: Time): seq<Action> {
    [Miss(0, c), Write(op, f), Invalidate(c)] + Late(c, at, delay, age)
  }

  /**
    The list of s is served at the end of the delay and again after `age`, and is true at the instant
    of the read alone.
   */
  ghost predicate ServesStale(s: Store, s': Store, at: Time, c: ChatId, delay: Time, age: Time, w: World) {
    && w.log == [Version(at, s), Version(at, s')]
    && w.served == [Served(c, ListOf(s, c), at, at + delay, at + delay),
                    Served(c, ListOf(s, c), at, at + delay, at + delay + age)]
    && forall u :: TrueAt(w.log, c, ListOf(s, c), u) <==> u == at
  }

  lemma OvertakenServesStale(s: Store, s': Store, at: Time, c: ChatId, delay: Time, age: Time, ttl: Time)
    requires c in s.chats && (c in s'.chats ==> ListOf(s', c) != ListOf(s, c)) && 0 <= delay && 0 <= age < ttl
    ensures Possible(Overtaken(s, s', at, c), Late(c, at, delay, age), ttl)
    ensures ServesStale(s, s', at, c, delay, age, After(Overtaken(s, s', at, c), Late(c, at, delay, age), ttl))
  {
    SetThenHit(Overtaken(s, s', at, c), 0, at + delay, at + delay + age, ttl);
    OnlyTrueAtRead(s, s', at, c);
  }

  /** A reader has read s when the content became s'. */
  ghost function Overtaken(s: Store, s': Store, at: Time, c: ChatId): World {
    World(at, [Version(at, s), Version(at, s')], map[], map[0 := Reading(c, ListOf(s, c), at)], [])
  }

  /** A read, a write and its invalidation, in this order, leave the reader with the old list. */
  lemma ReadThenWrite(s: Store, at: Time, op: Op, f: Faults, c: ChatId, rest: seq<Action>, ttl: Time)
    requires c in s.chats && !op.List?
    requires Possible(Overtaken(s, Step(s, op, f).store, at, c), rest, ttl)
    ensures var race := [Miss(0, c), Write(op, f), Invalidate(c)] + rest;
            && Possible(Start(s, at), race, ttl)
            && After(Start(s, at), race, ttl) == After(Overtaken(s, Step(s, op, f).store, at, c), rest, ttl)
  {
    var w0 := Start(s, at);
    var w1 := Next(w0, Miss(0, c), ttl);
    var w2 := Next(w1, Write(op, f), ttl);
    var w := Overtaken(s, Step(s, op, f).store, at, c);
    assert w1 == World(at, [Version(at, s)], map[], map[0 := Reading(c, ListOf(s, c), at)], []);
    assert Next(w2, Invalidate(c), ttl) == w;
    AfterStep(w2, Invalidate(c), rest, ttl);
    AfterStep(w1, Write(op, f), [Invalidate(c)] + rest, ttl);
    AfterStep(w0, Miss(0, c), [Write(op, f)] + ([Invalidate(c)] + rest), ttl);
    assert [Miss(0, c), Write(op, f), Invalidate(c)] + rest
         == [Miss(0, c)] + ([Write(op, f)] + ([Invalidate(c)] + rest));
  }

  lemma OnlyTrueAtRead(s: Store, s': Store, at: Time, c: ChatId)
    requires c in s.chats && (c in s'.chats ==> ListOf(s', c) != ListOf(s, c))
    ensures forall u :: TrueAt([Version(at, s), Version(at, s')], c, ListOf(s, c), u) <==> u == at
  {
    var log := [Version(at, s), Version(at, s')];
    assert CurrentAt(log, 0, at);
  }

  /** A pending reading can be set at any later time and then served until its lifetime is over. */
  lemma SetThenHit(w: World, r: int, set_: Time, hit: Time, ttl: Time)
    requires w.log != [] && r in w.readers && w.now <= set_ <= hit < set_ + ttl
    ensures var d := w.readers[r];
            var late := [Tick(set_), SetEntry(r), Tick(hit), Hit(d.chat)];
            && Possible(w, late, ttl)
            && After(w, late, ttl).log == w.log
            && After(w, late, ttl).served == w.served + [Served(d.chat, d.links, d.readAt, set_, set_),
                                                         Served(d.chat, d.links, d.readAt, set_, hit)]
  {
    var c := w.readers[r].chat;
    var w1 := Next(w, Tick(set_), ttl);
    var w2 := Next(w1, SetEntry(r), ttl);
    var w3 := Next(w2, Tick(hit), ttl);
    AfterStep(w3, Hit(c), [], ttl);
    AfterStep(w2, Tick(hit), [Hit(c)], ttl);
    AfterStep(w1, SetEntry(r), [Tick(hit)] + [Hit(c)], ttl);
    AfterStep(w, Tick(set_), [SetEntry(r)] + ([Tick(hit)] + [Hit(c)]), ttl);
    assert [Hit(c)] + [] == [Hit(c)];
    assert [Tick(set_), SetEntry(r), Tick(hit), Hit(c)] == [Tick(set_)] + ([SetEntry(r)] + ([Tick(hit)] + [Hit(c)]));
  }

  lemma AfterStep(w: World, a: Action, rest: seq<Action>, ttl: Time)
    requires Enabled(w, a, ttl) && Possible(Next(w, a, ttl), rest, ttl)
    ensures Possible(w, [a] + rest, ttl)
    ensures After(w, [a] + rest, ttl) == After(Next(w, a, ttl), rest, ttl)
  {
    assert ([a] + rest)[1..] == rest;
  }

  // ---------------------------------------------------------------- when there is no staleness at all

  /** The chats that were changed and whose entry has neither been invalidated nor set since. */
  ghost function Unsettled(w: World, a: Action, unsettled: set<ChatId>): set<ChatId>
    requires w.log != [] && (a.SetEntry? ==> a.reader in w.readers)
  {
    match a
    case Write(op, f) =>
      if op.PollSave? || Step(Current(w), op, f).reply.Failed? then unsettled else unsettled + {op.chat}
    case Invalidate(c) => unsettled - {c}
    case SetEntry(r) => unsettled - {w.readers[r].chat}
    case _ => unsettled
  }

  /**
    No chat is changed between a reader's read and its set, and none is served from the cache before
    its invalidation.
   */
  ghost predicate Orderly(w: World, a: Action, unsettled: set<ChatId>)
    requires w.log != []
  {
    match a
    case Write(op, f) =>
      forall r :: r in w.readers && Touches(op, w.readers[r].chat) ==> Step(Current(w), op, f).reply.Failed?
    case Hit(c) => c !in unsettled
    case _ => true
  }

  ghost predicate OrderlyRun(w: World, actions: seq<Action>, unsettled: set<ChatId>, ttl: Time)
    decreases |actions|
  {
    actions == [] ||
    (&& Enabled(w, actions[0], ttl) && Orderly(w, actions[0], unsettled)
     && OrderlyRun(Next(w, actions[0], ttl), actions[1..], Unsettled(w, actions[0], unsettled), ttl))
  }

  ghost predicate IsCurrent(w: World, c: ChatId, links: seq<TrackedView>)
    requires w.log != []
  {
    c in Current(w).chats && links == ListOf(Current(w), c)
  }

  ghost predicate Tidy(w: World, unsettled: set<ChatId>) {
    && w.log != [] && Valid(Current(w))
    && (forall r :: r in w.readers ==> IsCurrent(w, w.readers[r].chat, w.readers[r].links))
    && (forall c :: c in w.cache && c !in unsettled ==> IsCurrent(w, c, w.cache[c].links))
  }

  lemma WriteKeepsCurrent(w: World, op: Op, f: Faults, ttl: Time, c: ChatId, links: seq<TrackedView>)
    requires w.log != [] && Valid(Current(w)) && Enabled(w, Write(op, f), ttl) && IsCurrent(w, c, links)
    requires !Touches(op, c) || Step(Current(w), op, f).reply.Failed?
    ensures IsCurrent(Next(w, Write(op, f), ttl), c, links)
  {
    OtherChatsUntouched(Current(w), op, f, c);
  }

  lemma WriteKeepsTidy(w: World, op: Op, f: Faults, unsettled: set<ChatId>, ttl: Time)
    requires Tidy(w, unsettled) && Enabled(w, Write(op, f), ttl) && Orderly(w, Write(op, f), unsettled)
    ensures Tidy(Next(w, Write(op, f), ttl), Unsettled(w, Write(op, f), unsettled))
  {
    var w', later := Next(w, Write(op, f), ttl), Unsettled(w, Write(op, f), unsettled);
    StepKeepsValid(Current(w), op, f);
    forall r | r in w.readers ensures IsCurrent(w', w.readers[r].chat, w.readers[r].links) {
      WriteKeepsCurrent(w, op, f, ttl, w.readers[r].chat, w.readers[r].links);
    }
    forall c | c in w.cache && c !in later ensures IsCurrent(w', c, w.cache[c].links) {
      UnsettledTouched(w, op, f, unsettled, c);
      WriteKeepsCurrent(w, op, f, ttl, c, w.cache[c].links);
    }
  }

  lemma UnsettledTouched(w: World, op: Op, f: Faults, unsettled: set<ChatId>, c: ChatId)
    requires w.log != [] && c !in Unsettled(w, Write(op, f), unsettled)
    ensures c !in unsettled && (!Touches(op, c) || Step(Current(w), op, f).reply.Failed?)
  {
  }

  /** The tables stay; a reading is added only if it is current, and an entry only from a reader. */
  lemma QuietKeepsTidy(w: World, w': World, unsettled: set<ChatId>, later: set<ChatId>)
    requires Tidy(w, unsettled) && w'.log == w.log
    requires forall r :: r in w'.readers ==>
      (r in w.readers && w'.readers[r] == w.readers[r]) || IsCurrent(w, w'.readers[r].chat, w'.readers[r].links)
    requires forall c :: c in w'.cache && c !in later ==>
      (c !in unsettled && c in w.cache && w'.cache[c] == w.cache[c]) || IsCurrent(w, c, w'.cache[c].links)
    ensures Tidy(w', later)
  {
    forall r | r in w'.readers ensures IsCurrent(w', w'.readers[r].chat, w'.readers[r].links) {
      if r in w.readers && w'.readers[r] == w.readers[r] { assert IsCurrent(w, w.readers[r].chat, w.readers[r].links); }
    }
    forall c | c in w'.cache && c !in later ensures IsCurrent(w', c, w'.cache[c].links) {
      if c !in unsettled && c in w.cache && w'.cache[c] == w.cache[c] { assert IsCurrent(w, c, w.cache[c].links); }
    }
  }

  lemma NextKeepsTidy(w: World, a: Action, unsettled: set<ChatId>, ttl: Time)
    requires Tidy(w, unsettled) && Enabled(w, a, ttl) && Orderly(w, a, unsettled)
    ensures Tidy(Next(w, a, ttl), Unsettled(w, a, unsettled))
  {
    if a.Write? {
      WriteKeepsTidy(w, a.op, a.faults, unsettled, ttl);
    } else {
      if a.SetEntry? { assert IsCurrent(w, w.readers[a.reader].chat, w.readers[a.reader].links); }
      QuietKeepsTidy(w, Next(w, a, ttl), unsettled, Unsettled(w, a, unsettled));
    }
  }

  /**
    The other half: in a run where no chat is changed between a reader's read and its set, and every
    change is invalidated before the chat's next hit, each hit serves the current list.
   */
  lemma OrderlyHitsAreCurrent(s: Store, at: Time, before: seq<Action>, c: ChatId, ttl: Time)
    requires Valid(s) && OrderlyRun(Start(s, at), before + [Hit(c)], {}, ttl)
    ensures Possible(Start(s, at), before, ttl)
    ensures HitIsCurrent(After(Start(s, at), before, ttl), c, ttl)
  {
    HitsAreCurrent(Start(s, at), before, c, {}, ttl);
  }

  ghost predicate HitIsCurrent(w: World, c: ChatId, ttl: Time) {
    Enabled(w, Hit(c), ttl) && IsCurrent(w, c, w.cache[c].links)
  }

  lemma {:induction false} HitsAreCurrent(w: World, before: seq<Action>, c: ChatId, unsettled: set<ChatId>, ttl: Time)
    requires Tidy(w, unsettled) && OrderlyRun(w, before + [Hit(c)], unsettled, ttl)
    ensures Possible(w, before, ttl) && HitIsCurrent(After(w, before, ttl), c, ttl)
    decreases |before|
  {
    if before == [] {
      assert before + [Hit(c)] == [Hit(c)];
    } else {
      assert (before + [Hit(c)])[1..] == before[1..] + [Hit(c)];
      NextKeepsTidy(w, before[0], unsettled, ttl);
      HitsAreCurrent(Next(w, before[0], ttl), before[1..], c, Unsettled(w, before[0], unsettled), ttl);
    }
  }
}
