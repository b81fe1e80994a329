/**
  The four subscription tables of the scrapper database, with the constraints that the
  migrations declare on them, and the data-changing statements the repositories run.

  A `Store` is one committed (or one in-transaction) content of the tables.  `Database` holds
  the same tables as mutable state, together with the transaction that is open on them.
 */
module Schema {
  type ChatId = int
  type LinkId = int
  type Time = int

  datatype Option<+T> = None | Some(value: T)

  datatype Error =
    | ChatNotRegistered
    | ChatAlreadyRegistered
    | LinkNotFound
    | AlreadySubscribed
    | NotSubscribed
    | UrlNotSupported
    | DatabaseError
    | CacheError

  datatype Link = Link(url: string, lastUpdated: Time)
  datatype SubKey = SubKey(chat: ChatId, link: LinkId)
  datatype TagRow = TagRow(sub: SubKey, tag: string)

  datatype Store = Store(
    chats: set<ChatId>,
    links: map<LinkId, Link>,
    subs: set<SubKey>,
    tags: set<TagRow>,
    nextId: LinkId)

  const MAX_TAG_LENGTH := 255

  /** The declared constraints: unique urls, foreign keys, the tag width, and the id sequence ahead of every id. */
  ghost predicate Valid(s: Store) {
    && (forall i, j :: i in s.links && j in s.links && s.links[i].url == s.links[j].url ==> i == j)
    && (forall k :: k in s.subs ==> k.chat in s.chats && k.link in s.links)
    && (forall t :: t in s.tags ==> t.sub in s.subs && |t.tag| <= MAX_TAG_LENGTH)
    && (forall i :: i in s.links ==> i < s.nextId)
  }

  ghost predicate HasSubscriber(subs: set<SubKey>, l: LinkId) {
    exists k :: k in subs && k.link == l
  }

  /** What the trigger is for: no link outlives its last subscription. */
  ghost predicate NoOrphans(s: Store) {
    forall l :: l in s.links ==> HasSubscriber(s.subs, l)
  }

  /** All four tables equal; the id sequence is not compared, because PostgreSQL never rolls it back. */
  ghost predicate SameTables(s: Store, s': Store) {
    s.(nextId := s'.nextId) == s'
  }

  ghost function FindLink(s: Store, url: string): (r: Option<LinkId>)
    ensures r.Some? ==> r.value in s.links && s.links[r.value].url == url
    ensures r.None? ==> forall i :: i in s.links ==> s.links[i].url != url
  {
    if exists i :: i in s.links && s.links[i].url == url then
      var i :| i in s.links && s.links[i].url == url;
      Some(i)
    else
      None
  }

  /** INSERT ... ON CONFLICT (url) DO UPDATE SET last_updated; the sequence advances in both cases. */
  ghost function Upsert(s: Store, url: string, t: Time): Store {
    var l := FindLink(s, url);
    s.(links := s.links[(if l.Some? then l.value else s.nextId) := Link(url, t)], nextId := s.nextId + 1)
  }

  ghost function TagsOf(s: Store, k: SubKey): set<string> {
    set t | t in s.tags && t.sub == k :: t.tag
  }

  /** The rows that survive when the subscriptions in `gone` and their tags are deleted. */
  ghost function WithoutSubs(s: Store, gone: set<SubKey>): Store {
    s.(subs := s.subs - gone, tags := set t | t in s.tags && t.sub !in gone)
  }

  /** One firing of trg_delete_orphan_links for an old row whose link was `l`. */
  ghost function FireTrigger(s: Store, l: LinkId): Store {
    if HasSubscriber(s.subs, l) then s else s.(links := s.links - {l})
  }

  /** The trigger fired once per deleted row, in the order in which the rows are listed. */
  ghost function FireAll(s: Store, rows: seq<SubKey>): Store
    decreases |rows|
  {
    if rows == [] then s else FireAll(FireTrigger(s, rows[0].link), rows[1..])
  }

  /** What deleting `gone` amounts to once every firing is over. */
  ghost function Unsubscribed(s: Store, gone: set<SubKey>): Store {
    var w := WithoutSubs(s, gone);
    var orphans := set k | k in gone && !HasSubscriber(w.subs, k.link) :: k.link;
    w.(links := s.links - orphans)
  }

  ghost function SubsOfChat(s: Store, c: ChatId): set<SubKey> {
    set k | k in s.subs && k.chat == c
  }

  /** However the rows of a cascade are ordered, the k firings leave one and the same store. */
  lemma {:induction false} FireAllOrderFree(s: Store, rows: seq<SubKey>)
    ensures FireAll(s, rows)
         == s.(links := s.links - set k | k in rows && !HasSubscriber(s.subs, k.link) :: k.link)
    decreases |rows|
  {
    if rows == [] {
      assert s.links - (set k | k in rows && !HasSubscriber(s.subs, k.link) :: k.link) == s.links;
    } else {
      var t := FireTrigger(s, rows[0].link);
      FireAllOrderFree(t, rows[1..]);
      var all := set k | k in rows && !HasSubscriber(s.subs, k.link) :: k.link;
      var rest := set k | k in rows[1..] && !HasSubscriber(s.subs, k.link) :: k.link;
      assert forall k :: k in rows <==> k == rows[0] || k in rows[1..];
      assert t.links - rest == s.links - all by {
        if HasSubscriber(s.subs, rows[0].link) {
          assert all == rest;
        } else {
          assert all == {rows[0].link} + rest by {
            forall l | l in all ensures l in {rows[0].link} + rest {
              var k :| k in rows && !HasSubscriber(s.subs, k.link) && k.link == l;
            }
          }
        }
      }
    }
  }

  lemma CascadeIsUnsubscribed(s: Store, gone: set<SubKey>, rows: seq<SubKey>)
    requires forall k :: k in rows <==> k in gone
    ensures FireAll(WithoutSubs(s, gone), rows) == Unsubscribed(s, gone)
  {
    var w := WithoutSubs(s, gone);
    FireAllOrderFree(w, rows);
    assert (set k | k in rows && !HasSubscriber(w.subs, k.link) :: k.link)
        == (set k | k in gone && !HasSubscriber(w.subs, k.link) :: k.link);
  }

  /** Deleting any subscriptions keeps every constraint, and creates no orphan. */
  lemma UnsubscribedKeeps(s: Store, gone: set<SubKey>)
    requires Valid(s)
    ensures Valid(Unsubscribed(s, gone))
    ensures NoOrphans(s) ==> NoOrphans(Unsubscribed(s, gone))
  {
    var u := Unsubscribed(s, gone);
    forall k | k in u.subs ensures k.link in u.links {
      assert HasSubscriber(u.subs, k.link);
    }
    if NoOrphans(s) {
      forall l | l in u.links ensures HasSubscriber(u.subs, l) {
        var k :| k in s.subs && k.link == l;
        if k in gone && !HasSubscriber(u.subs, l) {
          assert false;
        }
      }
    }
  }

  lemma UpsertKeeps(s: Store, url: string, t: Time)
    requires Valid(s)
    ensures Valid(Upsert(s, url, t))
    ensures FindLink(s, url).Some? && NoOrphans(s) ==> NoOrphans(Upsert(s, url, t))
  {
  }

  /** The tables as mutable state, with the transaction that may be open on them. */
  class Database {
    var chats: set<ChatId>
    var links: map<LinkId, Link>
    var subs: set<SubKey>
    var tags: set<TagRow>
    var nextId: LinkId
    var undo: Option<Store>
    var aborted: bool

    constructor ()
      ensures Tables() == Store({}, map[], {}, {}, 1) && undo == None && !aborted
    {
      chats, links, subs, tags, nextId := {}, map[], {}, {}, 1;
      undo, aborted := None, false;
    }

    function Tables(): Store
      reads this
    {
      Store(chats, links, subs, tags, nextId)
    }

    method Begin(fault: bool) returns (ok: bool)
      requires undo == None
      modifies this
      ensures ok == !fault && Tables() == old(Tables())
      ensures ok ==> undo == Some(Tables()) && !aborted
      ensures !ok ==> undo == None
    {
      if fault {
        return false;
      }
      undo, aborted := Some(Tables()), false;
      ok := true;
    }

    /** Restores every table to its content at Begin; the sequence keeps its value. */
    method Rollback()
      requires undo.Some?
      modifies this
      ensures undo == None && Tables() == old(undo.value).(nextId := old(nextId))
    {
      chats, links, subs, tags := undo.value.chats, undo.value.links, undo.value.subs, undo.value.tags;
      undo := None;
    }

    /** A commit that fails, or that finds the transaction aborted, is a rollback. */
    method Commit(fault: bool) returns (ok: bool)
      requires undo.Some?
      modifies this
      ensures undo == None && ok == (!fault && !old(aborted))
      ensures Tables() == if ok then old(Tables()) else old(undo.value).(nextId := old(nextId))
    {
      ok := !fault && !aborted;
      if ok {
        undo := None;
      } else {
        Rollback();
      }
    }

    /** SELECT id ... WHERE url = ...; the unique constraint makes the row found the only one. */
    method LinkByUrl(url: string) returns (r: Option<LinkId>)
      requires Valid(Tables())
      ensures r == FindLink(Tables(), url)
    {
      if i :| i in links && links[i].url == url {
        r := Some(i);
      } else {
        r := None;
      }
    }

    method SaveLink(url: string, t: Time) returns (id: LinkId)
      requires Valid(Tables())
      modifies this`links, this`nextId
      ensures Tables() == Upsert(old(Tables()), url, t) && Valid(Tables())
      ensures id in links && links[id] == Link(url, t)
      ensures id == var l := FindLink(old(Tables()), url); if l.Some? then l.value else old(nextId)
    {
      UpsertKeeps(Tables(), url, t);
      var l := LinkByUrl(url);
      id := if l.Some? then l.value else nextId;
      links, nextId := links[id := Link(url, t)], nextId + 1;
    }

    /** SELECT EXISTS; a statement that fails aborts the transaction, and its caller reads "not found". */
    method SubscriptionExists(k: SubKey, fault: bool) returns (found: bool)
      modifies this`aborted
      ensures found == (!fault && k in subs)
      ensures aborted == (old(aborted) || fault)
    {
      found := !fault && k in subs;
      if fault {
        aborted := true;
      }
    }

    /** An aborted transaction refuses every further statement, and a failing statement aborts it. */
    method InsertSubscription(k: SubKey, fault: bool) returns (ok: bool)
      modifies this`subs, this`aborted
      ensures ok == (!old(aborted) && !fault && k !in old(subs))
      ensures subs == if ok then old(subs) + {k} else old(subs)
      ensures aborted == !ok
    {
      ok := !aborted && !fault && k !in subs;
      if ok {
        subs := subs + {k};
      } else {
        aborted := true;
      }
    }

    /**
      DELETE FROM subscriptions for the given rows: their tags go by cascade, then the row trigger
      runs once for each deleted row, in no particular order.
     */
    method DeleteSubscriptions(gone: set<SubKey>)
      requires gone <= subs
      modifies this`subs, this`tags, this`links
      ensures Tables() == Unsubscribed(old(Tables()), gone)
    {
      ghost var before := Tables();
      subs, tags := subs - gone, set t | t in tags && t.sub !in gone;
      ghost var w := Tables();
      ghost var fired: seq<SubKey> := [];
      var rest := gone;
      assert w == WithoutSubs(before, gone);
      while rest != {}
        invariant rest <= gone
        invariant forall k :: k in fired <==> k in gone && k !in rest
        invariant subs == w.subs && tags == w.tags && chats == w.chats && nextId == w.nextId
        invariant Tables() == FireAll(w, fired)
      {
        var k :| k in rest;
        FireAllOrderFree(w, fired);
        FireAllOrderFree(w, fired + [k]);
        var subscribed := exists q :: q in subs && q.link == k.link;
        if !subscribed {
          links := links - {k.link};
        }
        FireAllStep(w, fired, k);
        fired := fired + [k];
        rest := rest - {k};
      }
      CascadeIsUnsubscribed(before, gone, fired);
    }

    /** DELETE FROM chats: the cascade removes the chat's subscriptions, and they fire the trigger. */
    method DeleteChat(c: ChatId) returns (affected: bool)
      modifies this`chats, this`subs, this`tags, this`links
      ensures affected == (c in old(chats))
      ensures affected ==>
                Tables() == Unsubscribed(old(Tables()), SubsOfChat(old(Tables()), c)).(chats := old(chats) - {c})
      ensures !affected ==> Tables() == old(Tables())
    {
      affected := c in chats;
      if affected {
        var gone := set k | k in subs && k.chat == c;
        DeleteSubscriptions(gone);
        chats := chats - {c};
      }
    }
  }

  lemma {:induction false} FireAllStep(s: Store, rows: seq<SubKey>, k: SubKey)
    ensures FireAll(s, rows + [k]) == FireTrigger(FireAll(s, rows), k.link)
    decreases |rows|
  {
    if rows == [] {
      assert [k][1..] == [];
      assert FireAll(s, [k]) == FireAll(FireTrigger(s, k.link), []);
    } else {
      assert (rows + [k])[1..] == rows[1..] + [k];
      FireAllStep(FireTrigger(s, rows[0].link), rows[1..], k);
    }
  }
}
