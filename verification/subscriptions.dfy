/**
  The subscription service over the tables: its operations as functions of the committed store,
  as methods that run them statement by statement inside a transaction, and what they keep.
 */
module Subscriptions {
  import opened Schema
  import opened Grouping

  datatype TrackedLink = TrackedLink(id: LinkId, url: string, tags: seq<string>)

  /** A tracked link up to the order of its tags, which the join leaves open. */
  datatype TrackedView = TrackedView(id: LinkId, url: string, tags: set<string>)

  function ViewOf(t: TrackedLink): TrackedView {
    TrackedView(t.id, t.url, set x | x in t.tags)
  }

  function ViewsOf(ts: seq<TrackedLink>): seq<TrackedView> {
    seq(|ts|, i requires 0 <= i < |ts| => ViewOf(ts[i]))
  }

  /** Every statement of an operation that can fail on its own, whatever the tables hold. */
  datatype Stmt =
    | Begin | GetChat | GetUrl | SaveUrl | Exists | InsertSub | InsertTag(n: nat)
    | DeleteSub | GetSubs | GetLink(n: nat) | Commit | InsertChat | RemoveChat

  type Faults = Stmt -> bool

  datatype Op =
    | Register(chat: ChatId)
    | Delete(chat: ChatId)
    | List(chat: ChatId)
    | Add(chat: ChatId, url: string, tags: seq<string>, now: Time, handled: bool)
    | Remove(chat: ChatId, url: string)
    | PollSave(url: string, now: Time)

  datatype Reply =
    | Done
    | Listed(links: seq<TrackedView>)
    | Tracked(link: TrackedLink)
    | Failed(error: Error)

  datatype Outcome = Outcome(store: Store, reply: Reply)

  // ---------------------------------------------------------------- the operations as functions

  ghost function ListEntry(s: Store, c: ChatId, l: LinkId): TrackedView {
    TrackedView(l, if l in s.links then s.links[l].url else "", TagsOf(s, SubKey(c, l)))
  }

  /** The true list of a chat: its subscribed links in id order. */
  ghost function ListOf(s: Store, c: ChatId): seq<TrackedView> {
    var ids := Ascending(StoredKeys(s, ByChat(c)));
    seq(|ids|, i requires 0 <= i < |ids| => ListEntry(s, c, ids[i]))
  }

  ghost predicate TagsAccepted(tags: seq<string>, f: Faults) {
    && (forall i :: 0 <= i < |tags| ==> |tags[i]| <= MAX_TAG_LENGTH && !f(InsertTag(i)))
    && (forall i, j :: 0 <= i < j < |tags| ==> tags[i] != tags[j])
  }

  ghost function WithSub(s: Store, k: SubKey, tags: seq<string>): Store {
    s.(subs := s.subs + {k}, tags := s.tags + set t | t in tags :: TagRow(k, t))
  }

  /** The tables once the url has a link row: an existing row is used as it is. */
  ghost function Linked(s: Store, url: string, now: Time): Store {
    if FindLink(s, url).Some? then s else Upsert(s, url, now)
  }

  ghost function KeyFor(s: Store, c: ChatId, url: string): SubKey {
    var found := FindLink(s, url);
    SubKey(c, if found.Some? then found.value else s.nextId)
  }

  ghost function AddLink(s: Store, c: ChatId, url: string, tags: seq<string>,
                         now: Time, handled: bool, f: Faults): Outcome {
    if !handled then Outcome(s, Failed(UrlNotSupported))
    else if f(Begin) || f(GetChat) then Outcome(s, Failed(DatabaseError))
    else if c !in s.chats then Outcome(s, Failed(ChatNotRegistered))
    else if f(GetUrl) || (FindLink(s, url).None? && f(SaveUrl)) then Outcome(s, Failed(DatabaseError))
    else
      var k := KeyFor(s, c, url);
      var undone := s.(nextId := Linked(s, url, now).nextId);
      if f(Exists) then Outcome(undone, Failed(DatabaseError))
      else if k in s.subs then Outcome(undone, Failed(AlreadySubscribed))
      else if f(InsertSub) || !TagsAccepted(tags, f) || f(Commit) then Outcome(undone, Failed(DatabaseError))
      else Outcome(WithSub(Linked(s, url, now), k, tags), Tracked(TrackedLink(k.link, url, tags)))
  }

  ghost function RemoveLink(s: Store, c: ChatId, url: string, f: Faults): Outcome {
    if f(Begin) || f(GetChat) then Outcome(s, Failed(DatabaseError))
    else if c !in s.chats then Outcome(s, Failed(ChatNotRegistered))
    else if f(GetUrl) then Outcome(s, Failed(DatabaseError))
    else
      var found := FindLink(s, url);
      if found.None? then Outcome(s, Failed(LinkNotFound))
      else if f(DeleteSub) then Outcome(s, Failed(DatabaseError))
      else
        var k := SubKey(c, found.value);
        if k !in s.subs then Outcome(s, Failed(NotSubscribed))
        else if f(Commit) then Outcome(s, Failed(DatabaseError))
        else Outcome(Unsubscribed(s, {k}), Tracked(TrackedLink(k.link, url, [])))
  }

  ghost function GetTrackedLinks(s: Store, c: ChatId, f: Faults): Reply {
    if f(Begin) || f(GetChat) then Failed(DatabaseError)
    else if c !in s.chats then Failed(ChatNotRegistered)
    else if f(GetSubs) || f(Commit) || exists i: nat :: i < |ListOf(s, c)| && f(GetLink(i)) then Failed(DatabaseError)
    else Listed(ListOf(s, c))
  }

  ghost function Step(s: Store, op: Op, f: Faults): Outcome {
    match op
    case Register(c) =>
      if f(InsertChat) then Outcome(s, Failed(DatabaseError))
      else if c in s.chats then Outcome(s, Failed(ChatAlreadyRegistered))
      else Outcome(s.(chats := s.chats + {c}), Done)
    case Delete(c) =>
      if f(RemoveChat) then Outcome(s, Failed(DatabaseError))
      else if c !in s.chats then Outcome(s, Failed(ChatNotRegistered))
      else Outcome(Unsubscribed(s, SubsOfChat(s, c)).(chats := s.chats - {c}), Done)
    case List(c) => Outcome(s, GetTrackedLinks(s, c, f))
    case Add(c, url, tags, now, handled) => AddLink(s, c, url, tags, now, handled, f)
    case Remove(c, url) => RemoveLink(s, c, url, f)
    case PollSave(url, now) =>
      if f(SaveUrl) then Outcome(s, Failed(DatabaseError)) else Outcome(Upsert(s, url, now), Done)
  }

  ghost predicate NoFaults(f: Faults) {
    forall st :: !f(st)
  }

  // ---------------------------------------------------------------- what the operations keep

  lemma AddKeepsValid(s: Store, op: Op, f: Faults)
    requires Valid(s) && op.Add?
    ensures Valid(Step(s, op, f).store)
  {
    UpsertKeeps(s, op.url, op.now);
  }

  /** Every operation, committed or rolled back, keeps all declared constraints. */
  lemma StepKeepsValid(s: Store, op: Op, f: Faults)
    requires Valid(s)
    ensures Valid(Step(s, op, f).store)
  {
    match op {
      case Delete(c) =>
        UnsubscribedKeeps(s, SubsOfChat(s, c));
      case Add(_, _, _, _, _) =>
        AddKeepsValid(s, op, f);
      case Remove(c, url) =>
        var found := FindLink(s, url);
        if found.Some? { UnsubscribedKeeps(s, {SubKey(c, found.value)}); }
      case PollSave(url, now) =>
        UpsertKeeps(s, url, now);
      case _ =>
    }
  }

  /** Every operation of the service also keeps each link subscribed, chat deletion included. */
  lemma ServiceKeepsNoOrphans(s: Store, op: Op, f: Faults)
    requires Valid(s) && NoOrphans(s) && !op.PollSave?
    ensures NoOrphans(Step(s, op, f).store)
  {
    match op {
      case Delete(c) =>
        UnsubscribedKeeps(s, SubsOfChat(s, c));
      case Add(c, url, tags, now, handled) =>
        var s' := AddLink(s, c, url, tags, now, handled, f).store;
        forall l | l in s'.links ensures HasSubscriber(s'.subs, l) {
          if l in s.links {
            var k :| k in s.subs && k.link == l;
            assert k in s'.subs;
          } else {
            assert SubKey(c, l) in s'.subs;
          }
        }
      case Remove(c, url) =>
        var found := FindLink(s, url);
        if found.Some? { UnsubscribedKeeps(s, {SubKey(c, found.value)}); }
      case _ =>
    }
  }

  /**
    The poller's Save is the one writer that can leave an orphan: it does so exactly when the
    url is no longer in the table, because a link deleted during the pass is inserted again.
   */
  lemma PollSaveOrphansIff(s: Store, url: string, now: Time, f: Faults)
    requires Valid(s) && NoOrphans(s) && !f(SaveUrl)
    ensures NoOrphans(Step(s, PollSave(url, now), f).store) <==> FindLink(s, url).Some?
  {
    UpsertKeeps(s, url, now);
    if FindLink(s, url).None? {
      var s' := Upsert(s, url, now);
      assert s.nextId in s'.links;
      assert !HasSubscriber(s'.subs, s.nextId);
    }
  }

  /** All or nothing: an operation that fails leaves every table as it was. */
  lemma FailureRollsBack(s: Store, op: Op, f: Faults)
    requires Step(s, op, f).reply.Failed?
    ensures SameTables(s, Step(s, op, f).store)
  {
  }

  ghost predicate Touches(op: Op, c: ChatId) {
    match op
    case Register(d) => c == d
    case Delete(d) => c == d
    case Add(d, _, _, _, _) => c == d
    case Remove(d, _) => c == d
    case _ => false
  }

  lemma ListOfFrame(s: Store, s': Store, c: ChatId)
    requires StoredKeys(s, ByChat(c)) == StoredKeys(s', ByChat(c))
    requires forall l :: l in StoredKeys(s, ByChat(c)) ==> ListEntry(s, c, l) == ListEntry(s', c, l)
    ensures ListOf(s, c) == ListOf(s', c)
  {
  }

  lemma UnsubscribedFrame(s: Store, gone: set<SubKey>, c: ChatId)
    requires Valid(s) && forall k :: k in gone ==> k in s.subs && k.chat != c
    ensures ListOf(Unsubscribed(s, gone), c) == ListOf(s, c)
  {
    var s' := Unsubscribed(s, gone);
    var q := ByChat(c);
    StoredKeysAre(s, q);
    StoredKeysAre(s', q);
    forall key ensures key in StoredKeys(s, q) <==> key in StoredKeys(s', q) {
      assert q.SubOf(key) in s.subs <==> q.SubOf(key) in s'.subs;
    }
    forall l | l in StoredKeys(s, q) ensures ListEntry(s, c, l) == ListEntry(s', c, l) {
      UnsubscribedEntry(s, gone, SubKey(c, l));
    }
    ListOfFrame(s, s', c);
  }

  lemma UpsertFrame(s: Store, url: string, t: Time, c: ChatId)
    requires Valid(s)
    ensures ListOf(Upsert(s, url, t), c) == ListOf(s, c)
  {
    var s' := Upsert(s, url, t);
    var q := ByChat(c);
    assert StoredKeys(s, q) == StoredKeys(s', q);
    forall l | l in StoredKeys(s, q) ensures ListEntry(s, c, l) == ListEntry(s', c, l) {
      assert SubKey(c, l) in s.subs;
      assert TagsOf(s, SubKey(c, l)) == TagsOf(s', SubKey(c, l));
    }
    ListOfFrame(s, s', c);
  }

  lemma AddFrame(s: Store, k: SubKey, tags: seq<string>, c: ChatId)
    requires k.chat != c
    ensures ListOf(WithSub(s, k, tags), c) == ListOf(s, c)
  {
    var s' := WithSub(s, k, tags);
    var q := ByChat(c);
    StoredKeysAre(s, q);
    StoredKeysAre(s', q);
    forall key ensures key in StoredKeys(s, q) <==> key in StoredKeys(s', q) {
      assert q.SubOf(key) in s.subs <==> q.SubOf(key) in s'.subs;
    }
    forall l | l in StoredKeys(s, q) ensures ListEntry(s, c, l) == ListEntry(s', c, l) {
      assert TagsOf(s, SubKey(c, l)) == TagsOf(s', SubKey(c, l));
    }
    ListOfFrame(s, s', c);
  }

  /** What an operation that commits does to the tables. */
  ghost predicate Committed(s: Store, s': Store, op: Op) {
    match op
    case Register(d) => s' == s.(chats := s.chats + {d})
    case Delete(d) => s' == Unsubscribed(s, SubsOfChat(s, d)).(chats := s.chats - {d})
    case Add(d, url, tags, now, _) =>
      KeyFor(s, d, url) !in s.subs && s' == WithSub(Linked(s, url, now), KeyFor(s, d, url), tags)
    case Remove(d, url) => KeyFor(s, d, url) in s.subs && s' == Unsubscribed(s, {KeyFor(s, d, url)})
    case PollSave(url, now) => s' == Upsert(s, url, now)
    case List(_) => s' == s
  }

  lemma StepCommits(s: Store, op: Op, f: Faults)
    requires !Step(s, op, f).reply.Failed?
    ensures Committed(s, Step(s, op, f).store, op)
  {
  }

  lemma CommittedFrame(s: Store, s': Store, op: Op, c: ChatId)
    requires Valid(s) && Committed(s, s', op) && !Touches(op, c)
    ensures ListOf(s', c) == ListOf(s, c)
  {
    match op {
      case Register(d) =>
        ListIgnoresChats(s, s', c);
      case Delete(d) =>
        UnsubscribedFrame(s, SubsOfChat(s, d), c);
        ListIgnoresChats(Unsubscribed(s, SubsOfChat(s, d)), s', c);
      case Add(d, url, tags, now, handled) =>
        AddFrame(Linked(s, url, now), KeyFor(s, d, url), tags, c);
        UpsertFrame(s, url, now, c);
      case Remove(d, url) =>
        UnsubscribedFrame(s, {KeyFor(s, d, url)}, c);
      case PollSave(url, now) =>
        UpsertFrame(s, url, now, c);
      case List(d) =>
    }
  }

  /**
    No operation on one chat changes what another chat is registered for or tracks, in spite of
    the cascades, the shared links and the trigger; nor does the poller, nor a failed operation.
   */
  lemma OtherChatsUntouched(s: Store, op: Op, f: Faults, c: ChatId)
    requires Valid(s)
    requires !Touches(op, c) || Step(s, op, f).reply.Failed?
    ensures ListOf(Step(s, op, f).store, c) == ListOf(s, c)
    ensures c in Step(s, op, f).store.chats <==> c in s.chats
  {
    var s' := Step(s, op, f).store;
    if Step(s, op, f).reply.Failed? {
      FailureRollsBack(s, op, f);
      SameTablesSameList(s, s', c);
    } else {
      StepCommits(s, op, f);
      CommittedFrame(s, s', op, c);
    }
  }

  lemma SameTablesSameList(s: Store, s': Store, c: ChatId)
    requires SameTables(s, s')
    ensures ListOf(s, c) == ListOf(s', c)
  {
    var q := ByChat(c);
    assert StoredKeys(s, q) == StoredKeys(s', q);
    forall l | l in StoredKeys(s, q) ensures ListEntry(s, c, l) == ListEntry(s', c, l) {
      assert TagsOf(s, SubKey(c, l)) == TagsOf(s', SubKey(c, l));
    }
    ListOfFrame(s, s', c);
  }

  lemma ListIgnoresChats(s: Store, s': Store, c: ChatId)
    requires s.(chats := s'.chats) == s'
    ensures ListOf(s, c) == ListOf(s', c)
  {
    var q := ByChat(c);
    assert StoredKeys(s, q) == StoredKeys(s', q);
    forall l | l in StoredKeys(s, q) ensures ListEntry(s, c, l) == ListEntry(s', c, l) {
      assert TagsOf(s, SubKey(c, l)) == TagsOf(s', SubKey(c, l));
    }
    ListOfFrame(s, s', c);
  }

  /**
    Adding a link and removing it again: the removal succeeds, and all four tables are back to
    what they were exactly when the link was new or already had a subscriber.
   */
  lemma AddThenRemove(s: Store, c: ChatId, url: string, tags: seq<string>, now: Time, f: Faults, g: Faults)
    requires Valid(s) && NoFaults(g)
    requires AddLink(s, c, url, tags, now, true, f).reply.Tracked?
    ensures var s1 := AddLink(s, c, url, tags, now, true, f).store;
            var removed := RemoveLink(s1, c, url, g);
            && removed.reply.Tracked?
            && (SameTables(s, removed.store) <==>
                FindLink(s, url).None? || HasSubscriber(s.subs, FindLink(s, url).value))
  {
    var added := AddLink(s, c, url, tags, now, true, f);
    var s1, id := added.store, added.reply.link.id;
    StepKeepsValid(s, Add(c, url, tags, now, true), f);
    assert s1.links[id].url == url;
    assert FindLink(s1, url) == Some(id);
    var k := SubKey(c, id);
    assert k in s1.subs && k !in s.subs;
    var u := Unsubscribed(s1, {k});
    assert u.subs == s.subs;
    assert u.tags == s.tags by {
      assert forall t :: t in s.tags ==> t.sub != k;
    }
    var orphans := set q | q in {k} && !HasSubscriber(u.subs, q.link) :: q.link;
    assert id in orphans <==> !HasSubscriber(s.subs, id) by {
      assert k in {k} && k.link == id;
    }
    if FindLink(s, url).None? {
      assert id == s.nextId && id !in s.links;
      assert !HasSubscriber(s.subs, id);
      assert u.links == s.links;
    } else {
      assert s1.links == s.links && id in s.links;
      assert HasSubscriber(s.subs, id) ==> u.links == s.links;
      assert !HasSubscriber(s.subs, id) ==> id !in u.links;
    }
  }

  /** So with no orphan in the table, adding and removing is always the identity. */
  lemma AddThenRemoveRestores(s: Store, c: ChatId, url: string, tags: seq<string>, now: Time, f: Faults, g: Faults)
    requires Valid(s) && NoOrphans(s) && NoFaults(g)
    requires AddLink(s, c, url, tags, now, true, f).reply.Tracked?
    ensures SameTables(s, RemoveLink(AddLink(s, c, url, tags, now, true, f).store, c, url, g).store)
  {
    AddThenRemove(s, c, url, tags, now, f, g);
  }

  /** What a chat sees after a successful AddLink: its old list, plus the new link with its tags. */
  lemma AddedLinkListed(s: Store, c: ChatId, url: string, tags: seq<string>, now: Time, f: Faults, v: TrackedView)
    requires Valid(s)
    requires AddLink(s, c, url, tags, now, true, f).reply.Tracked?
    ensures var r := AddLink(s, c, url, tags, now, true, f);
            v in ListOf(r.store, c) <==> v in ListOf(s, c) || v == ViewOf(r.reply.link)
  {
    var op := Add(c, url, tags, now, true);
    StepKeepsValid(s, op, f);
    StepCommits(s, op, f);
    CommittedAddListed(s, Step(s, op, f).store, op, v);
    assert AddLink(s, c, url, tags, now, true, f) == Step(s, op, f);
  }

  lemma CommittedAddListed(s: Store, s': Store, op: Op, v: TrackedView)
    requires Valid(s) && Valid(s') && op.Add? && Committed(s, s', op)
    ensures v in ListOf(s', op.chat) <==>
            v in ListOf(s, op.chat) || v == TrackedView(KeyFor(s, op.chat, op.url).link, op.url, set t | t in op.tags)
  {
    UpsertFrame(s, op.url, op.now, op.chat);
    UpsertKeeps(s, op.url, op.now);
    SubListed(Linked(s, op.url, op.now), KeyFor(s, op.chat, op.url), op.tags, v);
  }

  lemma SubListed(s: Store, k: SubKey, tags: seq<string>, v: TrackedView)
    requires Valid(s) && k !in s.subs && Valid(WithSub(s, k, tags))
    ensures v in ListOf(WithSub(s, k, tags), k.chat) <==>
            v in ListOf(s, k.chat) || v == TrackedView(k.link, s.links[k.link].url, set t | t in tags)
  {
    var s', q := WithSub(s, k, tags), SubKey(k.chat, v.id);
    ListedIff(s, k.chat, v);
    ListedIff(s', k.chat, v);
    if q == k {
      assert TagsOf(s', k) == (set t | t in tags) by {
        forall t ensures t in TagsOf(s', k) <==> t in tags {
          assert TagRow(k, t) in s'.tags <==> t in tags;
        }
      }
    } else {
      assert TagsOf(s', q) == TagsOf(s, q);
    }
  }

  /** After a successful RemoveLink: the old list without that link. */
  lemma RemovedLinkUnlisted(s: Store, c: ChatId, url: string, f: Faults, v: TrackedView)
    requires Valid(s)
    requires RemoveLink(s, c, url, f).reply.Tracked?
    ensures var r := RemoveLink(s, c, url, f);
            v in ListOf(r.store, c) <==> v in ListOf(s, c) && v.url != url
  {
    StepKeepsValid(s, Remove(c, url), f);
    SubUnlisted(s, SubKey(c, FindLink(s, url).value), v);
    ListedIff(s, c, v);
  }

  lemma SubUnlisted(s: Store, k: SubKey, v: TrackedView)
    requires Valid(s) && k in s.subs && Valid(Unsubscribed(s, {k}))
    ensures v in ListOf(Unsubscribed(s, {k}), k.chat) <==> v in ListOf(s, k.chat) && v.id != k.link
  {
    var s', q := Unsubscribed(s, {k}), SubKey(k.chat, v.id);
    ListedIff(s, k.chat, v);
    ListedIff(s', k.chat, v);
    assert q in s'.subs <==> q in s.subs && q != k;
    if q in s.subs && q != k {
      UnsubscribedEntry(s, {k}, q);
    }
  }

  /** A subscription that is not deleted keeps its link's url and its tags. */
  lemma UnsubscribedEntry(s: Store, gone: set<SubKey>, q: SubKey)
    requires Valid(s) && q in s.subs && q !in gone
    ensures q.link in Unsubscribed(s, gone).links && Unsubscribed(s, gone).links[q.link] == s.links[q.link]
    ensures TagsOf(Unsubscribed(s, gone), q) == TagsOf(s, q)
  {
    var s' := Unsubscribed(s, gone);
    assert q in s'.subs && HasSubscriber(s'.subs, q.link);
    forall t ensures t in TagsOf(s, q) <==> t in TagsOf(s', q) {
      assert TagRow(q, t) in s.tags <==> TagRow(q, t) in s'.tags;
    }
  }

  /** A chat that is deleted, and registered anew, starts with an empty list. */
  lemma DeletedChatForgets(s: Store, c: ChatId, f: Faults, g: Faults)
    requires Valid(s) && Step(s, Delete(c), f).reply.Done?
    requires Step(Step(s, Delete(c), f).store, Register(c), g).reply.Done?
    ensures ListOf(Step(Step(s, Delete(c), f).store, Register(c), g).store, c) == []
  {
    var s2 := Step(Step(s, Delete(c), f).store, Register(c), g).store;
    StoredKeysAre(s2, ByChat(c));
    assert forall l :: SubKey(c, l) !in s2.subs;
    assert StoredKeys(s2, ByChat(c)) == {};
  }

  lemma ListedIff(s: Store, c: ChatId, v: TrackedView)
    requires Valid(s)
    ensures v in ListOf(s, c) <==>
            SubKey(c, v.id) in s.subs && v.url == s.links[v.id].url && v.tags == TagsOf(s, SubKey(c, v.id))
  {
    var q := ByChat(c);
    StoredKeysAre(s, q);
    var ids, list := Ascending(StoredKeys(s, q)), ListOf(s, c);
    if v in list {
      var i :| 0 <= i < |list| && list[i] == v;
      assert ids[i] in ids;
    }
    if SubKey(c, v.id) in s.subs {
      assert q.SubOf(v.id) in s.subs;
      var i :| 0 <= i < |ids| && ids[i] == v.id;
      assert list[i] == ListEntry(s, c, v.id);
    }
  }

  // ---------------------------------------------------------------- the operations as transactions

  class Service {
    const db: Database

    constructor (db: Database)
      ensures this.db == db
    {
      this.db := db;
    }

    method RegisterChat(c: ChatId, f: Faults) returns (r: Reply)
      modifies db
      ensures db.Tables() == Step(old(db.Tables()), Register(c), f).store
      ensures r == Step(old(db.Tables()), Register(c), f).reply
      ensures db.undo == old(db.undo)
    {
      if f(InsertChat) {
        return Failed(DatabaseError);
      }
      if c in db.chats {
        return Failed(ChatAlreadyRegistered);
      }
      db.chats := db.chats + {c};
      r := Done;
    }

    method DeleteChat(c: ChatId, f: Faults) returns (r: Reply)
      modifies db
      ensures db.Tables() == Step(old(db.Tables()), Delete(c), f).store
      ensures r == Step(old(db.Tables()), Delete(c), f).reply
      ensures db.undo == old(db.undo)
    {
      if f(RemoveChat) {
        return Failed(DatabaseError);
      }
      var affected := db.DeleteChat(c);
      if !affected {
        return Failed(ChatNotRegistered);
      }
      r := Done;
    }

    /** `rows` is the database's answer to the join, in whatever order it lists the tags. */
    method GetTrackedLinks(c: ChatId, rows: seq<Row>, f: Faults) returns (r: Reply, links: seq<TrackedLink>)
      requires db.undo == None && IsLeftJoin(db.Tables(), ByChat(c), rows)
      modifies db
      ensures db.Tables() == old(db.Tables()) && db.undo == None
      ensures Valid(db.Tables()) ==> r == Step(db.Tables(), List(c), f).reply
      ensures r.Listed? ==> r.links == ViewsOf(links)
    {
      links := [];
      var ok := db.Begin(f(Begin));
      if !ok {
        return Failed(DatabaseError), [];
      }
      if f(GetChat) {
        db.Rollback();
        return Failed(DatabaseError), [];
      }
      if c !in db.chats {
        db.Rollback();
        return Failed(ChatNotRegistered), [];
      }
      if f(GetSubs) {
        db.Rollback();
        return Failed(DatabaseError), [];
      }
      var error;
      links, error := ReadLinks(c, rows, f);
      if error.Some? {
        db.Rollback();
        return Failed(error.value), [];
      }
      ok := db.Commit(f(Commit));
      if !ok {
        return Failed(DatabaseError), [];
      }
      r := Listed(ViewsOf(links));
    }

    /** The reads between GetByID and the commit: the grouped subscriptions, each with its link. */
    method ReadLinks(c: ChatId, rows: seq<Row>, f: Faults) returns (links: seq<TrackedLink>, error: Option<Error>)
      requires IsLeftJoin(db.Tables(), ByChat(c), rows)
      ensures Valid(db.Tables()) && error.None? ==>
        ViewsOf(links) == ListOf(db.Tables(), c) && forall i: nat :: i < |ListOf(db.Tables(), c)| ==> !f(GetLink(i))
      ensures Valid(db.Tables()) && error.Some? ==>
        error.value == DatabaseError && exists i: nat :: i < |ListOf(db.Tables(), c)| && f(GetLink(i))
    {
      var subscriptions := ScanSubscriptions(ByChat(c), rows);
      if Valid(db.Tables()) {
        ScannedSubscriptions(db.Tables(), c, rows);
      }
      links, error := Resolve(subscriptions, f);
    }

    /** The loop over the subscriptions: each link is looked up by id, and the first failure ends it. */
    method Resolve(subscriptions: seq<Subscription>, f: Faults) returns (links: seq<TrackedLink>, error: Option<Error>)
      ensures error.None? ==>
        && |links| == |subscriptions|
        && forall i: nat :: i < |links| ==>
             && !f(GetLink(i)) && subscriptions[i].link in db.links
             && links[i] == TrackedLink(subscriptions[i].link,
                                        db.links[subscriptions[i].link].url, subscriptions[i].tags)
      ensures error.Some? ==>
        exists i: nat :: i < |subscriptions|
          && error.value == (if f(GetLink(i)) then DatabaseError else LinkNotFound)
          && (f(GetLink(i)) || subscriptions[i].link !in db.links)
    {
      links, error := [], None;
      for i := 0 to |subscriptions|
        invariant |links| == i
        invariant forall j: nat :: j < i ==>
             && !f(GetLink(j)) && subscriptions[j].link in db.links
             && links[j] == TrackedLink(subscriptions[j].link,
                                        db.links[subscriptions[j].link].url, subscriptions[j].tags)
      {
        var sub := subscriptions[i];
        if f(GetLink(i)) {
          return [], Some(DatabaseError);
        }
        if sub.link !in db.links {
          return [], Some(LinkNotFound);
        }
        links := links + [TrackedLink(sub.link, db.links[sub.link].url, sub.tags)];
      }
    }

    method AddLink(c: ChatId, url: string, tags: seq<string>, now: Time, handled: bool, f: Faults) returns (r: Reply)
      requires db.undo == None && Valid(db.Tables())
      modifies db
      ensures db.Tables() == Step(old(db.Tables()), Add(c, url, tags, now, handled), f).store
      ensures r == Step(old(db.Tables()), Add(c, url, tags, now, handled), f).reply
      ensures db.undo == None && Valid(db.Tables())
    {
      ghost var s := db.Tables();
      StepKeepsValid(s, Add(c, url, tags, now, handled), f);
      if !handled {
        return Failed(UrlNotSupported);
      }
      var ok := db.Begin(f(Begin));
      if !ok {
        return Failed(DatabaseError);
      }
      if f(GetChat) {
        db.Rollback();
        return Failed(DatabaseError);
      }
      if c !in db.chats {
        db.Rollback();
        return Failed(ChatNotRegistered);
      }
      if f(GetUrl) {
        db.Rollback();
        return Failed(DatabaseError);
      }
      var found := db.LinkByUrl(url);
      var id: LinkId;
      if found.Some? {
        id := found.value;
      } else {
        if f(SaveUrl) {
          db.Rollback();
          return Failed(DatabaseError);
        }
        id := db.SaveLink(url, now);
      }
      var k := SubKey(c, id);
      // The error of Exists is dropped, but it has aborted the transaction, so the insert fails.
      var subscribed := db.SubscriptionExists(k, f(Exists));
      if subscribed {
        db.Rollback();
        return Failed(AlreadySubscribed);
      }
      ok := SaveSubscription(k, tags, f);
      if !ok {
        db.Rollback();
        return Failed(DatabaseError);
      }
      ok := db.Commit(f(Commit));
      if !ok {
        return Failed(DatabaseError);
      }
      r := Tracked(TrackedLink(id, url, tags));
    }

    /** The subscription row and then its tags. */
    method SaveSubscription(k: SubKey, tags: seq<string>, f: Faults) returns (ok: bool)
      requires Valid(db.Tables())
      modifies db`subs, db`tags, db`aborted
      ensures ok == (!old(db.aborted) && !f(InsertSub) && k !in old(db.subs) && TagsAccepted(tags, f))
      ensures ok ==> db.Tables() == WithSub(old(db.Tables()), k, tags) && !db.aborted
    {
      ok := db.InsertSubscription(k, f(InsertSub));
      if ok {
        ok := InsertTags(k, tags, f);
      }
    }

    /** insertTagsBatch: one insert per tag; a repeated or over-long tag fails the batch. */
    method InsertTags(k: SubKey, tags: seq<string>, f: Faults) returns (ok: bool)
      requires forall t :: t in db.tags ==> t.sub != k
      modifies db`tags
      ensures ok == TagsAccepted(tags, f)
      ensures ok ==> db.tags == old(db.tags) + set t | t in tags :: TagRow(k, t)
    {
      ok := true;
      for i := 0 to |tags|
        invariant db.tags == old(db.tags) + set t | t in tags[..i] :: TagRow(k, t)
        invariant TagsAccepted(tags[..i], f)
      {
        assert tags[..i+1] == tags[..i] + [tags[i]];
        if TagRow(k, tags[i]) in db.tags {
          assert tags[i] in tags[..i];
          return false;
        }
        if f(InsertTag(i)) || |tags[i]| > MAX_TAG_LENGTH {
          return false;
        }
        db.tags := db.tags + {TagRow(k, tags[i])};
      }
      assert tags[..|tags|] == tags;
    }

    method RemoveLink(c: ChatId, url: string, f: Faults) returns (r: Reply)
      requires db.undo == None && Valid(db.Tables())
      modifies db
      ensures db.Tables() == Step(old(db.Tables()), Remove(c, url), f).store
      ensures r == Step(old(db.Tables()), Remove(c, url), f).reply
      ensures db.undo == None && Valid(db.Tables())
    {
      StepKeepsValid(db.Tables(), Remove(c, url), f);
      var ok := db.Begin(f(Begin));
      if !ok {
        return Failed(DatabaseError);
      }
      if f(GetChat) {
        db.Rollback();
        return Failed(DatabaseError);
      }
      if c !in db.chats {
        db.Rollback();
        return Failed(ChatNotRegistered);
      }
      if f(GetUrl) {
        db.Rollback();
        return Failed(DatabaseError);
      }
      var found := db.LinkByUrl(url);
      if found.None? {
        db.Rollback();
        return Failed(LinkNotFound);
      }
      var k := SubKey(c, found.value);
      if f(DeleteSub) {
        db.Rollback();
        return Failed(DatabaseError);
      }
      if k !in db.subs {
        db.Rollback();
        return Failed(NotSubscribed);
      }
      db.DeleteSubscriptions({k});
      ok := db.Commit(f(Commit));
      if !ok {
        return Failed(DatabaseError);
      }
      // Delete returns the key alone, so the reply carries no tags.
      r := Tracked(TrackedLink(found.value, url, []));
    }
  }

  /** The scanned subscriptions carry, in order, exactly what the chat's true list shows. */
  lemma ScannedSubscriptions(s: Store, c: ChatId, rows: seq<Row>)
    requires Valid(s) && IsLeftJoin(s, ByChat(c), rows)
    ensures |Grouped(ByChat(c), rows)| == |ListOf(s, c)|
    ensures forall i :: 0 <= i < |ListOf(s, c)| ==>
      var sub := Grouped(ByChat(c), rows)[i];
      && sub.link in s.links
      && ListOf(s, c)[i] == TrackedView(sub.link, s.links[sub.link].url, set t | t in sub.tags)
  {
    var q := ByChat(c);
    JoinKeys(s, q, rows);
    forall i: nat | i < |ListOf(s, c)|
      ensures var sub := Grouped(q, rows)[i];
              && sub.link in s.links
              && ListOf(s, c)[i] == TrackedView(sub.link, s.links[sub.link].url, set t | t in sub.tags)
    {
      GroupingInvertsJoin(s, q, rows, i);
    }
  }
}
