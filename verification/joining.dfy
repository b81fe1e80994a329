/**
  More about reading subscriptions back.  Grouping keeps the tags in the order of the rows; and the
  rows of the left join are constructed: every valid store has an answer to each of the queries, so
  what is proved of such answers is never empty.
 */
module Joining {
  import opened Schema
  import opened Grouping
  import opened Positions

  // ---------------------------------------------------------------- tags in row order

  function TagValues(rows: seq<Row>): (values: seq<string>)
    ensures |values| == |rows| && forall i :: 0 <= i < |rows| && rows[i].tag.Some? ==> values[i] == rows[i].tag.value
  {
    seq(|rows|, i requires 0 <= i < |rows| => ValueOf(rows[i]))
  }

  ghost function Tagged(q: Query, rows: seq<Row>, key: int): (marks: seq<bool>)
    ensures |marks| == |rows|
    ensures forall i :: 0 <= i < |rows| ==> marks[i] == Matches(q, rows[i], key)
  {
    if rows == [] then []
    else
      var last := rows[|rows|-1];
      Tagged(q, rows[..|rows|-1], key) + [Matches(q, last, key)]
  }

  lemma {:induction false} KeyTagsAreFiltered(q: Query, rows: seq<Row>, key: int)
    ensures KeyTags(q, rows, key) == Filtered(TagValues(rows), Tagged(q, rows, key))
  {
    if rows != [] {
      var front, last := rows[..|rows|-1], rows[|rows|-1];
      KeyTagsAreFiltered(q, front, key);
      OneMoreRow(q, front, last, key);
      assert rows == front + [last];
    }
  }

  lemma OneMoreRow(q: Query, front: seq<Row>, last: Row, key: int)
    requires KeyTags(q, front, key) == Filtered(TagValues(front), Tagged(q, front, key))
    ensures KeyTags(q, front + [last], key) == Filtered(TagValues(front + [last]), Tagged(q, front + [last], key))
  {
    LastTag(q, front, last, key);
    LastMark(q, front, last, key);
    FilteredLast(TagValues(front), Tagged(q, front, key), ValueOf(last), Matches(q, last, key));
  }

  function ValueOf(row: Row): string {
    if row.tag.Some? then row.tag.value else ""
  }

  predicate Matches(q: Query, row: Row, key: int) {
    q.KeyOf(row) == key && row.tag.Some?
  }

  lemma LastTag(q: Query, front: seq<Row>, last: Row, key: int)
    ensures KeyTags(q, front + [last], key) ==
            KeyTags(q, front, key) + if Matches(q, last, key) then [ValueOf(last)] else []
  {
    assert (front + [last])[..|front|] == front;
  }

  lemma LastMark(q: Query, front: seq<Row>, last: Row, key: int)
    ensures TagValues(front + [last]) == TagValues(front) + [ValueOf(last)]
    ensures Tagged(q, front + [last], key) == Tagged(q, front, key) + [Matches(q, last, key)]
  {
    assert (front + [last])[..|front|] == front;
  }

  /** The tags of a group are those of its key's rows that are not null, row by row in the order of the rows. */
  lemma GroupInRowOrder(q: Query, rows: seq<Row>, i: nat) returns (at: seq<nat>)
    requires i < |Grouped(q, rows)|
    ensures Picks(Grouped(q, rows)[i].tags, at, TagValues(rows))
    ensures var key := FirstKeys(q, rows)[i];
            forall n: nat :: n in at <==> n < |rows| && q.KeyOf(rows[n]) == key && rows[n].tag.Some?
  {
    var key := FirstKeys(q, rows)[i];
    at := Marked(Tagged(q, rows, key));
    KeyTagsAreFiltered(q, rows, key);
    FilteredPicks(TagValues(rows), Tagged(q, rows, key));
  }

  // ---------------------------------------------------------------- the join exists

  ghost function Listing(tags: set<string>): (list: seq<string>)
    ensures forall t :: t in list <==> t in tags
    ensures list == [] <==> tags == {}
    ensures forall i, j :: 0 <= i < j < |list| ==> list[i] != list[j]
  {
    assert (forall t :: t !in tags) ==> tags == {};
    if tags == {} then []
    else
      var t :| t in tags;
      [t] + Listing(tags - {t})
  }

  /** The join's rows of one subscription. */
  ghost function RowsOfSub(s: Store, k: SubKey): (rows: seq<Row>)
    ensures rows != []
  {
    var tags := Listing(TagsOf(s, k));
    if tags == [] then [Row(k.chat, k.link, None)]
    else seq(|tags|, i requires 0 <= i < |tags| => Row(k.chat, k.link, Some(tags[i])))
  }

  ghost function JoinRows(s: Store, q: Query, keys: seq<int>): seq<Row> {
    if keys == [] then [] else RowsOfSub(s, q.SubOf(keys[0])) + JoinRows(s, q, keys[1..])
  }

  ghost predicate IsJoinRow(s: Store, q: Query, r: Row) {
    var k := SubKey(r.chat, r.link);
    q.SubOf(q.KeyOf(r)) == k && match r.tag { case Some(t) => TagRow(k, t) in s.tags case None => TagsOf(s, k) == {} }
  }

  lemma RowsOfSubAre(s: Store, q: Query, key: int)
    ensures forall r :: r in RowsOfSub(s, q.SubOf(key)) <==> IsJoinRow(s, q, r) && q.KeyOf(r) == key
    ensures var rows := RowsOfSub(s, q.SubOf(key)); forall i, j :: 0 <= i < j < |rows| ==> rows[i] != rows[j]
  {
    var k := q.SubOf(key);
    var tags, rows := Listing(TagsOf(s, k)), RowsOfSub(s, k);
    forall r ensures r in rows <==> IsJoinRow(s, q, r) && q.KeyOf(r) == key {
      if r in rows {
        var i :| 0 <= i < |rows| && rows[i] == r;
        if tags != [] { assert tags[i] in TagsOf(s, k); }
      }
      if IsJoinRow(s, q, r) && q.KeyOf(r) == key {
        JoinRowListed(s, k, r);
      }
    }
  }

  lemma JoinRowListed(s: Store, k: SubKey, r: Row)
    requires r.chat == k.chat && r.link == k.link
    requires match r.tag { case Some(t) => TagRow(k, t) in s.tags case None => TagsOf(s, k) == {} }
    ensures r in RowsOfSub(s, k)
  {
    var tags, rows := Listing(TagsOf(s, k)), RowsOfSub(s, k);
    if r.tag.Some? {
      assert r.tag.value in TagsOf(s, k);
      var i :| 0 <= i < |tags| && tags[i] == r.tag.value;
      assert rows[i] == r;
    } else {
      assert rows[0] == r;
    }
  }

  ghost predicate InKeyOrder(q: Query, rows: seq<Row>) {
    forall i, j :: 0 <= i < j < |rows| ==> rows[i] != rows[j] && q.KeyOf(rows[i]) <= q.KeyOf(rows[j])
  }

  lemma KeyOrderJoins(q: Query, first: seq<Row>, rest: seq<Row>)
    requires InKeyOrder(q, first) && InKeyOrder(q, rest)
    requires forall r, r' :: r in first && r' in rest ==> q.KeyOf(r) < q.KeyOf(r')
    ensures InKeyOrder(q, first + rest)
  {
    var rows := first + rest;
    forall i, j | 0 <= i < j < |rows| ensures rows[i] != rows[j] && q.KeyOf(rows[i]) <= q.KeyOf(rows[j]) {
      if i < |first| <= j {
        assert first[i] in first && rest[j - |first|] in rest;
      }
    }
  }

  lemma {:induction false} JoinRowsAre(s: Store, q: Query, keys: seq<int>)
    requires forall i, j :: 0 <= i < j < |keys| ==> keys[i] < keys[j]
    ensures forall r :: r in JoinRows(s, q, keys) <==> IsJoinRow(s, q, r) && q.KeyOf(r) in keys
    ensures InKeyOrder(q, JoinRows(s, q, keys))
  {
    if keys != [] {
      var first, rest := RowsOfSub(s, q.SubOf(keys[0])), JoinRows(s, q, keys[1..]);
      RowsOfSubAre(s, q, keys[0]);
      JoinRowsAre(s, q, keys[1..]);
      assert forall key :: key in keys <==> key == keys[0] || key in keys[1..];
      assert forall key :: key in keys[1..] ==> keys[0] < key;
      KeyOrderJoins(q, first, rest);
    }
  }

  lemma IsJoin(s: Store, q: Query, rows: seq<Row>)
    requires Valid(s) && InKeyOrder(q, rows)
    requires forall r :: r in rows <==> IsJoinRow(s, q, r) && q.SubOf(q.KeyOf(r)) in s.subs
    ensures IsLeftJoin(s, q, rows)
  {
    forall i | 0 <= i < |rows|
      ensures var k := SubKey(rows[i].chat, rows[i].link);
              && k in s.subs && q.Selects(k)
              && match rows[i].tag { case Some(t) => TagRow(k, t) in s.tags case None => TagsOf(s, k) == {} }
    {
      assert rows[i] in rows;
    }
    forall k, tag | k in s.subs && q.Selects(k) ensures q.SubOf(q.KeyOf(Row(k.chat, k.link, tag))) == k {
    }
  }

  /** Every valid store has an answer to each of the two queries. */
  lemma JoinExists(s: Store, q: Query) returns (rows: seq<Row>)
    requires Valid(s)
    ensures IsLeftJoin(s, q, rows)
  {
    var keys := Ascending(StoredKeys(s, q));
    rows := JoinRows(s, q, keys);
    StoredKeysAre(s, q);
    JoinRowsAre(s, q, keys);
    IsJoin(s, q, rows);
  }
}
