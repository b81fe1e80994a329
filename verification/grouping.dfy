/**
  Reading subscriptions back: the LEFT JOIN of subscriptions with their tags, and the loop that
  groups its rows into one subscription per key.
 */
module Grouping {
  import opened Schema

  datatype Row = Row(chat: ChatId, link: LinkId, tag: Option<string>)
  datatype Subscription = Subscription(chat: ChatId, link: LinkId, tags: seq<string>)

  /** The two queries: GetByChatID groups by link, GetByLinkID groups by chat. */
  datatype Query = ByChat(chat: ChatId) | ByLink(link: LinkId) {
    predicate Selects(k: SubKey) {
      match this
      case ByChat(c) => k.chat == c
      case ByLink(l) => k.link == l
    }

    function KeyOf(r: Row): int {
      if ByChat? then r.link else r.chat
    }

    function SubOf(key: int): SubKey {
      match this
      case ByChat(c) => SubKey(c, key)
      case ByLink(l) => SubKey(key, l)
    }
  }

  // ---------------------------------------------------------------- what the loop computes

  /** The distinct keys in the order in which they first appear. */
  function FirstKeys(q: Query, rows: seq<Row>): (keys: seq<int>)
  {
    if rows == [] then []
    else
      var before := FirstKeys(q, rows[..|rows|-1]);
      var key := q.KeyOf(rows[|rows|-1]);
      if key in before then before else before + [key]
  }

  /** The non-null tags of one key, in row order. */
  function KeyTags(q: Query, rows: seq<Row>, key: int): seq<string>
  {
    if rows == [] then []
    else
      var last := rows[|rows|-1];
      var before := KeyTags(q, rows[..|rows|-1], key);
      if q.KeyOf(last) == key && last.tag.Some? then before + [last.tag.value] else before
  }

  /** The subscription row that a key first appears with. */
  function FirstRow(q: Query, rows: seq<Row>, key: int): (i: nat)
    requires key in FirstKeys(q, rows)
    ensures i < |rows| && q.KeyOf(rows[i]) == key
    ensures forall j :: 0 <= j < i ==> q.KeyOf(rows[j]) != key
  {
    FirstKeysAre(q, rows);
    if key in FirstKeys(q, rows[..|rows|-1]) then FirstRow(q, rows[..|rows|-1], key)
    else FirstKeysAre(q, rows[..|rows|-1]); |rows| - 1
  }

  /** Every key occurs, no key that does not occur is listed, and none is listed twice. */
  lemma {:induction false} FirstKeysAre(q: Query, rows: seq<Row>)
    ensures forall key :: key in FirstKeys(q, rows) <==> exists i :: 0 <= i < |rows| && q.KeyOf(rows[i]) == key
    ensures forall i, j :: 0 <= i < j < |FirstKeys(q, rows)| ==> FirstKeys(q, rows)[i] != FirstKeys(q, rows)[j]
  {
    if rows != [] {
      var front := rows[..|rows|-1];
      FirstKeysAre(q, front);
      assert forall i :: 0 <= i < |front| ==> front[i] == rows[i];
      forall key
        ensures key in FirstKeys(q, rows) <==> exists i :: 0 <= i < |rows| && q.KeyOf(rows[i]) == key
      {
        if key in FirstKeys(q, front) {
          var i :| 0 <= i < |front| && q.KeyOf(front[i]) == key;
          assert q.KeyOf(rows[i]) == key;
        }
      }
    }
  }

  /** First-appearance order: an earlier key in the list has an earlier first row. */
  lemma {:induction false} FirstKeysInOrder(q: Query, rows: seq<Row>, i: nat, j: nat)
    requires i < j < |FirstKeys(q, rows)|
    ensures FirstRow(q, rows, FirstKeys(q, rows)[i]) < FirstRow(q, rows, FirstKeys(q, rows)[j])
  {
    var front := rows[..|rows|-1];
    var keys := FirstKeys(q, rows);
    FirstKeysAre(q, rows);
    FirstKeysAre(q, front);
    if j < |FirstKeys(q, front)| {
      FirstKeysInOrder(q, front, i, j);
    } else {
      assert keys[i] in FirstKeys(q, front);
    }
  }

  /** One subscription per key, in first-appearance order, with the tags of that key's rows. */
  function Grouped(q: Query, rows: seq<Row>): seq<Subscription> {
    var keys := FirstKeys(q, rows);
    seq(|keys|, i requires 0 <= i < |keys| =>
      var first := rows[FirstRow(q, rows, keys[i])];
      Subscription(first.chat, first.link, KeyTags(q, rows, keys[i])))
  }

  /**
    scanSubscriptions: a map from key to the subscription being built, the keys in order of
    first appearance, and one pass over the rows.
   */
  method ScanSubscriptions(q: Query, rows: seq<Row>) returns (result: seq<Subscription>)
    ensures result == Grouped(q, rows)
  {
    var subsMap: map<int, Subscription> := map[];
    var orderedKeys: seq<int> := [];
    for n := 0 to |rows|
      invariant orderedKeys == FirstKeys(q, rows[..n])
      invariant forall key :: key in subsMap <==> key in orderedKeys
      invariant forall j :: 0 <= j < |orderedKeys| ==> orderedKeys[j] in subsMap
      invariant forall key :: key in orderedKeys ==>
        var first := rows[FirstRow(q, rows[..n], key)];
        subsMap[key] == Subscription(first.chat, first.link, KeyTags(q, rows[..n], key))
    {
      var row := rows[n];
      var key := q.KeyOf(row);
      assert rows[..n+1][..n] == rows[..n];
      KeyTagsOfNew(q, rows[..n], key);
      if key !in subsMap {
        subsMap := subsMap[key := Subscription(row.chat, row.link, [])];
        orderedKeys := orderedKeys + [key];
      }
      if row.tag.Some? {
        subsMap := subsMap[key := subsMap[key].(tags := subsMap[key].tags + [row.tag.value])];
      }
    }
    assert rows[..|rows|] == rows;
    result := ListInOrder(subsMap, orderedKeys);
  }

  method ListInOrder(subsMap: map<int, Subscription>, orderedKeys: seq<int>) returns (result: seq<Subscription>)
    requires forall i :: 0 <= i < |orderedKeys| ==> orderedKeys[i] in subsMap
    ensures |result| == |orderedKeys| && forall i :: 0 <= i < |result| ==> result[i] == subsMap[orderedKeys[i]]
  {
    result := [];
    for i := 0 to |orderedKeys|
      invariant |result| == i
      invariant forall j :: 0 <= j < i ==> result[j] == subsMap[orderedKeys[j]]
    {
      result := result + [subsMap[orderedKeys[i]]];
    }
  }

  lemma {:induction false} KeyTagsOfNew(q: Query, rows: seq<Row>, key: int)
    ensures key !in FirstKeys(q, rows) ==> KeyTags(q, rows, key) == []
  {
    if rows != [] {
      KeyTagsOfNew(q, rows[..|rows|-1], key);
    }
  }

  /** The tags grouped under a key are exactly the non-null tags of that key's rows. */
  lemma {:induction false} KeyTagsAre(q: Query, rows: seq<Row>, key: int)
    ensures forall t :: t in KeyTags(q, rows, key) <==>
      exists i :: 0 <= i < |rows| && q.KeyOf(rows[i]) == key && rows[i].tag == Some(t)
  {
    if rows != [] {
      var front := rows[..|rows|-1];
      KeyTagsAre(q, front, key);
      assert forall i :: 0 <= i < |front| ==> front[i] == rows[i];
      forall t
        ensures t in KeyTags(q, rows, key) <==>
          exists i :: 0 <= i < |rows| && q.KeyOf(rows[i]) == key && rows[i].tag == Some(t)
      {
        if t in KeyTags(q, front, key) {
          var i :| 0 <= i < |front| && q.KeyOf(front[i]) == key && front[i].tag == Some(t);
          assert q.KeyOf(rows[i]) == key;
        }
      }
    }
  }

  // ---------------------------------------------------------------- the stored subscriptions

  ghost function Least(ids: set<int>): (m: int)
    requires ids != {}
    ensures m in ids && forall x :: x in ids ==> m <= x
  {
    assert (forall x :: x !in ids) ==> ids == {};
    var x :| x in ids;
    if ids == {x} then x
    else
      var m := Least(ids - {x});
      assert forall y :: y in ids ==> y == x || y in ids - {x};
      if x < m then x else m
  }

  ghost function Ascending(ids: set<int>): (s: seq<int>)
    ensures forall x :: x in s <==> x in ids
    ensures forall i, j :: 0 <= i < j < |s| ==> s[i] < s[j]
  {
    if ids == {} then []
    else
      var m := Least(ids);
      var rest := Ascending(ids - {m});
      assert forall x :: x in rest ==> m < x;
      [m] + rest
  }

  lemma {:induction false} AscendingUnique(s: seq<int>, t: seq<int>)
    requires forall i, j :: 0 <= i < j < |s| ==> s[i] < s[j]
    requires forall i, j :: 0 <= i < j < |t| ==> t[i] < t[j]
    requires forall x :: x in s <==> x in t
    ensures s == t
  {
    assert s != [] ==> s[0] in s;
    assert t != [] ==> t[0] in t;
    if s != [] {
      assert s[0] == t[0];
      forall x ensures x in s[1..] <==> x in t[1..] {
        assert x in s[1..] ==> x in s && x != s[0];
        assert x in t[1..] ==> x in t && x != t[0];
      }
      AscendingUnique(s[1..], t[1..]);
    }
  }

  /** The keys that a query groups by: the other half of each selected subscription. */
  ghost function StoredKeys(s: Store, q: Query): set<int> {
    match q
    case ByChat(c) => set k | k in s.subs && k.chat == c :: k.link
    case ByLink(l) => set k | k in s.subs && k.link == l :: k.chat
  }

  lemma StoredKeysAre(s: Store, q: Query)
    ensures forall key :: key in StoredKeys(s, q) <==> q.SubOf(key) in s.subs
  {
    forall key | q.SubOf(key) in s.subs ensures key in StoredKeys(s, q) {
      var k := q.SubOf(key);
    }
  }

  /**
    What PostgreSQL returns for the query: each selected subscription once per tag, or once with a
    null tag if it has none, ordered by the key; tags of one subscription come in any order.
   */
  ghost predicate IsLeftJoin(s: Store, q: Query, rows: seq<Row>) {
    && (forall i :: 0 <= i < |rows| ==>
         var k := SubKey(rows[i].chat, rows[i].link);
         && k in s.subs && q.Selects(k)
         && match rows[i].tag { case Some(t) => TagRow(k, t) in s.tags case None => TagsOf(s, k) == {} })
    && (forall k :: k in s.subs && q.Selects(k) && TagsOf(s, k) == {} ==> Row(k.chat, k.link, None) in rows)
    && (forall t :: t in s.tags && t.sub in s.subs && q.Selects(t.sub) ==>
         Row(t.sub.chat, t.sub.link, Some(t.tag)) in rows)
    && (forall i, j :: 0 <= i < j < |rows| ==> rows[i] != rows[j])
    && (forall i, j :: 0 <= i < j < |rows| ==> q.KeyOf(rows[i]) <= q.KeyOf(rows[j]))
  }

  /** Grouping the rows of the join lists every selected subscription once, in key order. */
  lemma JoinKeys(s: Store, q: Query, rows: seq<Row>)
    requires Valid(s) && IsLeftJoin(s, q, rows)
    ensures FirstKeys(q, rows) == Ascending(StoredKeys(s, q))
  {
    var keys := FirstKeys(q, rows);
    FirstKeysAre(q, rows);
    StoredKeysAre(s, q);
    forall key ensures key in keys <==> key in StoredKeys(s, q) {
      if key in keys {
        var i :| 0 <= i < |rows| && q.KeyOf(rows[i]) == key;
        assert q.SubOf(key) == SubKey(rows[i].chat, rows[i].link);
      }
      if key in StoredKeys(s, q) {
        var k := q.SubOf(key);
        assert k in s.subs && q.Selects(k);
        var row := if TagsOf(s, k) == {} then Row(k.chat, k.link, None)
                   else var t :| t in TagsOf(s, k); Row(k.chat, k.link, Some(t));
        assert row in rows;
        assert q.KeyOf(row) == key;
      }
    }
    forall i, j | 0 <= i < j < |keys| ensures keys[i] < keys[j] {
      FirstKeysInOrder(q, rows, i, j);
    }
    AscendingUnique(keys, Ascending(StoredKeys(s, q)));
  }

  /** ... and under each key exactly its stored tags, each of them once. */
  lemma JoinTags(s: Store, q: Query, rows: seq<Row>, key: int)
    requires Valid(s) && IsLeftJoin(s, q, rows) && key in StoredKeys(s, q)
    ensures (set t | t in KeyTags(q, rows, key)) == TagsOf(s, q.SubOf(key))
    ensures |KeyTags(q, rows, key)| == |TagsOf(s, q.SubOf(key))|
  {
    StoredKeysAre(s, q);
    KeyTagsAre(q, rows, key);
    var k := q.SubOf(key);
    var tags := KeyTags(q, rows, key);
    forall t ensures t in tags <==> t in TagsOf(s, k) {
      if t in tags {
        var i :| 0 <= i < |rows| && q.KeyOf(rows[i]) == key && rows[i].tag == Some(t);
        assert SubKey(rows[i].chat, rows[i].link) == k;
        assert TagRow(k, t) in s.tags;
      }
      if t in TagsOf(s, k) {
        assert TagRow(k, t) in s.tags;
        assert Row(k.chat, k.link, Some(t)) in rows;
        var i :| 0 <= i < |rows| && rows[i] == Row(k.chat, k.link, Some(t));
      }
    }
    KeyTagsDistinct(s, q, rows, key);
    DistinctSize(tags);
    assert (set t | t in tags) == TagsOf(s, k);
  }

  /**
    Grouping inverts the join: whatever order the database lists the tags in, the result is the
    selected subscriptions in key order, each with exactly its stored tags, none of them repeated.
   */
  lemma GroupingInvertsJoin(s: Store, q: Query, rows: seq<Row>, i: nat)
    requires Valid(s) && IsLeftJoin(s, q, rows)
    requires i < |Ascending(StoredKeys(s, q))|
    ensures |Grouped(q, rows)| == |Ascending(StoredKeys(s, q))|
    ensures var sub := Grouped(q, rows)[i];
            && SubKey(sub.chat, sub.link) == q.SubOf(Ascending(StoredKeys(s, q))[i])
            && SubKey(sub.chat, sub.link) in s.subs
            && (set t | t in sub.tags) == TagsOf(s, SubKey(sub.chat, sub.link))
            && |sub.tags| == |TagsOf(s, SubKey(sub.chat, sub.link))|
  {
    JoinKeys(s, q, rows);
    StoredKeysAre(s, q);
    var key := FirstKeys(q, rows)[i];
    assert key in StoredKeys(s, q);
    JoinTags(s, q, rows, key);
    var n := FirstRow(q, rows, key);
    assert q.SubOf(key) == SubKey(rows[n].chat, rows[n].link);
  }

  lemma {:induction false} KeyTagsDistinct(s: Store, q: Query, rows: seq<Row>, key: int)
    requires forall i :: 0 <= i < |rows| ==> q.Selects(SubKey(rows[i].chat, rows[i].link))
    requires forall i, j :: 0 <= i < j < |rows| ==> rows[i] != rows[j]
    ensures forall i, j :: 0 <= i < j < |KeyTags(q, rows, key)| ==> KeyTags(q, rows, key)[i] != KeyTags(q, rows, key)[j]
  {
    if rows != [] {
      var front, last := rows[..|rows|-1], rows[|rows|-1];
      KeyTagsDistinct(s, q, front, key);
      KeyTagsAre(q, front, key);
      assert forall i :: 0 <= i < |front| ==> front[i] == rows[i] && rows[i] != last;
      assert forall r ::
          (r in front && q.KeyOf(r) == key && r.tag == last.tag && q.KeyOf(last) == key
           && q.Selects(SubKey(r.chat, r.link))) ==> r == last;
    }
  }

  lemma {:induction false} DistinctSize<T>(s: seq<T>)
    requires forall i, j :: 0 <= i < j < |s| ==> s[i] != s[j]
    ensures |set x | x in s| == |s|
  {
    if s != [] {
      DistinctSize(s[1..]);
      assert (set x | x in s) == {s[0]} + set x | x in s[1..];
    }
  }
}
