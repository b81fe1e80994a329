/**
  What each operation of the subscription service answers, and when: every reply has its exact
  condition on the tables and on the statements that fail.
 */
module Replies {
  import opened Schema
  import opened Grouping
  import opened Subscriptions

  // ---------------------------------------------------------------- what the tables say

  ghost predicate Stored(s: Store, url: string) {
    exists l :: l in s.links && s.links[l].url == url
  }

  /** This chat, and not just any chat, is subscribed to a link with the url. */
  ghost predicate Tracks(s: Store, c: ChatId, url: string) {
    exists l :: l in s.links && s.links[l].url == url && SubKey(c, l) in s.subs
  }

  ghost predicate TagsFit(tags: seq<string>) {
    && (forall t :: t in tags ==> |t| <= 255)
    && (forall i, j :: 0 <= i < j < |tags| ==> tags[i] != tags[j])
  }

  // ---------------------------------------------------------------- how far an operation gets

  /** The transaction has begun and the chat has been looked up. */
  ghost predicate ChatRead(f: Faults) {
    !f(Begin) && !f(GetChat)
  }

  /** AddLink has a link row for the url, found or inserted. */
  ghost predicate LinkReady(s: Store, c: ChatId, url: string, f: Faults) {
    ChatRead(f) && c in s.chats && !f(GetUrl) && (Stored(s, url) || !f(SaveUrl))
  }

  /** The statements that write the subscription and end the transaction all work. */
  ghost predicate WritesWork(tags: seq<string>, f: Faults) {
    !f(InsertSub) && !f(Commit) && forall i: nat :: i < |tags| ==> !f(InsertTag(i))
  }

  lemma FoundIff(s: Store, c: ChatId, url: string)
    requires Valid(s)
    ensures Stored(s, url) <==> FindLink(s, url).Some?
    ensures Stored(s, url) ==> (Tracks(s, c, url) <==> SubKey(c, FindLink(s, url).value) in s.subs)
    ensures Tracks(s, c, url) ==> Stored(s, url)
    ensures KeyFor(s, c, url) in s.subs <==> Tracks(s, c, url)
  {
    if FindLink(s, url).None? {
      assert s.nextId !in s.links;
    }
  }

  lemma AcceptedIff(tags: seq<string>, f: Faults)
    ensures TagsAccepted(tags, f) <==> TagsFit(tags) && forall i: nat :: i < |tags| ==> !f(InsertTag(i))
  {
    if TagsAccepted(tags, f) {
      forall t | t in tags ensures |t| <= 255 {
        var i :| 0 <= i < |tags| && tags[i] == t;
      }
    }
  }

  // ---------------------------------------------------------------- AddLink

  /**
    AddLink succeeds if and only if the url is supported, the chat is registered, this chat is not
    subscribed to it yet, the tags fit and no statement fails; each error has its own condition.
   */
  lemma AddReplies(s: Store, c: ChatId, url: string, tags: seq<string>, now: Time, handled: bool, f: Faults)
    requires Valid(s)
    ensures var r := Step(s, Add(c, url, tags, now, handled), f).reply;
            && (r.Tracked? <==> handled && LinkReady(s, c, url, f) && !f(Exists) && !Tracks(s, c, url)
                                && TagsFit(tags) && WritesWork(tags, f))
            && (r == Failed(UrlNotSupported) <==> !handled)
            && (r == Failed(ChatNotRegistered) <==> handled && ChatRead(f) && c !in s.chats)
            && (r == Failed(AlreadySubscribed) <==>
                handled && LinkReady(s, c, url, f) && !f(Exists) && Tracks(s, c, url))
            && (r == Failed(DatabaseError) <==>
                handled && (!ChatRead(f) ||
                            (c in s.chats &&
                             (!LinkReady(s, c, url, f) || f(Exists) ||
                              (!Tracks(s, c, url) && (!TagsFit(tags) || !WritesWork(tags, f)))))))
  {
    FoundIff(s, c, url);
    AcceptedIff(tags, f);
  }

  /**
    A successful AddLink uses the link row that is there, as it is, or a new one with the current
    time; it adds one subscription and its tags, and answers with exactly these.
   */
  lemma AddEffect(s: Store, c: ChatId, url: string, tags: seq<string>, now: Time, handled: bool, f: Faults)
    requires Valid(s) && Step(s, Add(c, url, tags, now, handled), f).reply.Tracked?
    ensures var o := Step(s, Add(c, url, tags, now, handled), f);
            var id := o.reply.link.id;
            && o.reply.link.url == url && o.reply.link.tags == tags && o.store.chats == s.chats
            && (if Stored(s, url) then o.store.links == s.links && id in s.links && s.links[id].url == url
                else id !in s.links && o.store.links == s.links[id := Link(url, now)])
            && o.store.subs == s.subs + {SubKey(c, id)}
            && (forall t :: t in o.store.tags <==> t in s.tags || (t.sub == SubKey(c, id) && t.tag in tags))
  {
    FoundIff(s, c, url);
    var op := Add(c, url, tags, now, handled);
    StepCommits(s, op, f);
    var o, k := Step(s, op, f), KeyFor(s, c, url);
    assert o.reply.link.id == k.link;
    forall t: TagRow | t.sub == k && t.tag in tags ensures t in o.store.tags {
      assert t == TagRow(k, t.tag);
    }
  }

  // ---------------------------------------------------------------- RemoveLink

  lemma RemoveReplies(s: Store, c: ChatId, url: string, f: Faults)
    requires Valid(s)
    ensures var r := Step(s, Remove(c, url), f).reply;
            var looked := ChatRead(f) && c in s.chats && !f(GetUrl);
            && (r.Tracked? <==> looked && Tracks(s, c, url) && !f(DeleteSub) && !f(Commit))
            && (r == Failed(ChatNotRegistered) <==> ChatRead(f) && c !in s.chats)
            && (r == Failed(LinkNotFound) <==> looked && !Stored(s, url))
            && (r == Failed(NotSubscribed) <==> looked && Stored(s, url) && !f(DeleteSub) && !Tracks(s, c, url))
            && (r == Failed(DatabaseError) <==>
                !ChatRead(f) ||
                (c in s.chats &&
                 (f(GetUrl) || (Stored(s, url) && (f(DeleteSub) || (Tracks(s, c, url) && f(Commit)))))))
  {
    FoundIff(s, c, url);
  }

  /** A successful RemoveLink answers with the link and no tags; the link's row goes only with its last subscriber. */
  lemma RemoveEffect(s: Store, c: ChatId, url: string, f: Faults)
    requires Valid(s) && Step(s, Remove(c, url), f).reply.Tracked?
    ensures var o := Step(s, Remove(c, url), f);
            var id := o.reply.link.id;
            && id in s.links && s.links[id].url == url && o.reply.link == TrackedLink(id, url, [])
            && o.store.chats == s.chats && o.store.subs == s.subs - {SubKey(c, id)}
            && (forall t :: t in o.store.tags <==> t in s.tags && t.sub != SubKey(c, id))
            && o.store.links == if exists d :: d != c && SubKey(d, id) in s.subs then s.links else s.links - {id}
  {
    FoundIff(s, c, url);
    var k := SubKey(c, FindLink(s, url).value);
    var u := Unsubscribed(s, {k});
    assert HasSubscriber(u.subs, k.link) <==> exists d :: d != c && SubKey(d, k.link) in s.subs by {
      if HasSubscriber(u.subs, k.link) {
        var q :| q in u.subs && q.link == k.link;
        assert q == SubKey(q.chat, k.link);
      }
      if d :| d != c && SubKey(d, k.link) in s.subs {
        assert SubKey(d, k.link) in u.subs;
      }
    }
    var orphans := set q | q in {k} && !HasSubscriber(u.subs, q.link) :: q.link;
    assert orphans == if HasSubscriber(u.subs, k.link) then {} else {k.link};
  }

  // ---------------------------------------------------------------- RegisterChat and DeleteChat

  lemma RegisterReplies(s: Store, c: ChatId, f: Faults)
    ensures var o := Step(s, Register(c), f);
            && (o.reply == Done <==> !f(InsertChat) && c !in s.chats)
            && (o.reply == Failed(ChatAlreadyRegistered) <==> !f(InsertChat) && c in s.chats)
            && (o.reply == Failed(DatabaseError) <==> f(InsertChat))
            && (o.reply == Done ==> o.store.chats == s.chats + {c} && o.store.(chats := s.chats) == s)
  {
  }

  /** Deleting a chat takes its subscriptions, their tags, and exactly the links that nobody else tracks. */
  lemma DeleteReplies(s: Store, c: ChatId, f: Faults)
    requires Valid(s)
    ensures var o := Step(s, Delete(c), f);
            && (o.reply == Done <==> !f(RemoveChat) && c in s.chats)
            && (o.reply == Failed(ChatNotRegistered) <==> !f(RemoveChat) && c !in s.chats)
            && (o.reply == Failed(DatabaseError) <==> f(RemoveChat))
            && (o.reply == Done ==>
                  && o.store.chats == s.chats - {c}
                  && (forall k :: k in o.store.subs <==> k in s.subs && k.chat != c)
                  && (forall t :: t in o.store.tags <==> t in s.tags && t.sub.chat != c))
  {
    if Step(s, Delete(c), f).reply == Done {
      assert forall t :: t in s.tags ==> t.sub in s.subs;
    }
  }

  lemma DeletedLinks(s: Store, c: ChatId, f: Faults, l: LinkId)
    requires Valid(s) && Step(s, Delete(c), f).reply == Done
    ensures var s' := Step(s, Delete(c), f).store;
            && (l in s'.links <==>
                l in s.links && (SubKey(c, l) in s.subs ==> exists d :: d != c && SubKey(d, l) in s.subs))
            && (l in s'.links ==> s'.links[l] == s.links[l])
  {
    var gone := SubsOfChat(s, c);
    var u := Unsubscribed(s, gone);
    if SubKey(c, l) in s.subs {
      assert SubKey(c, l) in gone;
      if d :| d != c && SubKey(d, l) in s.subs {
        assert SubKey(d, l) in u.subs;
      }
      if HasSubscriber(u.subs, l) {
        var q :| q in u.subs && q.link == l;
        assert q == SubKey(q.chat, l);
      }
    } else {
      assert forall k :: k in gone && k.link == l ==> k == SubKey(c, l);
    }
  }

  /** The poller's save moves the time of the url's row, or adds a row under a new id; nothing else changes. */
  lemma PollSaveEffect(s: Store, url: string, now: Time, f: Faults)
    requires Valid(s)
    ensures var o := Step(s, PollSave(url, now), f);
            && (o.reply == Failed(DatabaseError) <==> f(SaveUrl)) && (o.reply == Done <==> !f(SaveUrl))
            && o.store.chats == s.chats && o.store.subs == s.subs && o.store.tags == s.tags
            && (o.reply == Done ==>
                  exists l :: o.store.links == s.links[l := Link(url, now)]
                              && if Stored(s, url) then l in s.links && s.links[l].url == url else l !in s.links)
  {
    FoundIff(s, 0, url);
    var l := if FindLink(s, url).Some? then FindLink(s, url).value else s.nextId;
    assert Upsert(s, url, now).links == s.links[l := Link(url, now)];
  }

  // ---------------------------------------------------------------- GetTrackedLinks

  lemma {:induction false} AscendingSize(ids: set<int>)
    ensures |Ascending(ids)| == |ids|
  {
    if ids != {} { AscendingSize(ids - {Least(ids)}); }
  }

  lemma {:induction false} LinksSize(subs: set<SubKey>, c: ChatId)
    requires forall k :: k in subs ==> k.chat == c
    ensures |set k | k in subs :: k.link| == |subs|
  {
    if subs != {} {
      assert (forall k :: k !in subs) ==> subs == {};
      var k :| k in subs;
      LinksSize(subs - {k}, c);
      assert forall q :: q in subs && q.link == k.link ==> q == k;
      assert (set q | q in subs :: q.link) == (set q | q in subs - {k} :: q.link) + {k.link};
    }
  }

  /** One entry for each subscription of the chat, in ascending order of link id. */
  lemma ListShape(s: Store, c: ChatId)
    ensures |ListOf(s, c)| == |SubsOfChat(s, c)|
    ensures forall i, j :: 0 <= i < j < |ListOf(s, c)| ==> ListOf(s, c)[i].id < ListOf(s, c)[j].id
  {
    var keys := StoredKeys(s, ByChat(c));
    AscendingSize(keys);
    LinksSize(SubsOfChat(s, c), c);
    assert keys == set k | k in SubsOfChat(s, c) :: k.link;
  }

  /**
    GetTrackedLinks lists if and only if the chat is registered and no statement fails, the lookup of
    each subscribed link included; and the list shows exactly the chat's subscriptions, each once, in
    order of id, with url and tags as stored.
   */
  lemma ListReplies(s: Store, c: ChatId, f: Faults)
    requires Valid(s)
    ensures var r := Step(s, List(c), f).reply;
            var works := !f(GetSubs) && !f(Commit) && forall i: nat :: i < |SubsOfChat(s, c)| ==> !f(GetLink(i));
            && (r.Listed? <==> ChatRead(f) && c in s.chats && works)
            && (r == Failed(ChatNotRegistered) <==> ChatRead(f) && c !in s.chats)
            && (r == Failed(DatabaseError) <==> !ChatRead(f) || (c in s.chats && !works))
            && (r.Listed? ==>
                  && (forall i, j :: 0 <= i < j < |r.links| ==> r.links[i].id < r.links[j].id)
                  && forall v :: v in r.links <==>
                       SubKey(c, v.id) in s.subs && v.url == s.links[v.id].url && v.tags == TagsOf(s, SubKey(c, v.id)))
  {
    ListShape(s, c);
    forall v
      ensures v in ListOf(s, c) <==>
              SubKey(c, v.id) in s.subs && v.url == s.links[v.id].url && v.tags == TagsOf(s, SubKey(c, v.id))
    {
      ListedIff(s, c, v);
    }
  }
}
