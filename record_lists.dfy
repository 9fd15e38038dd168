/**
 * The three list transforms every activity tab applies to its records:
 * spread-append on create, `map` replace-by-id on an edit, `filter`
 * remove-by-id on a delete. Ids come from a millisecond timestamp, so nothing
 * makes them unique; each transform is stated for lists with repeated ids too.
 */
module RecordLists {
  import opened Store

  /** Some record carries `id`. */
  predicate HasId(records: seq<Entry>, id: string)
  {
    exists k :: 0 <= k < |records| && records[k].id == id
  }

  /** No two records share an id. */
  predicate UniqueIds(records: seq<Entry>)
  {
    forall i, j :: 0 <= i < j < |records| ==> records[i].id != records[j].id
  }

  /** The number of records carrying `id`. */
  function CountId(records: seq<Entry>, id: string): nat
  {
    if records == [] then 0
    else (if records[0].id == id then 1 else 0) + CountId(records[1..], id)
  }

  /** `records.map(r => r.id === id ? replacement : r)`. */
  function ReplaceById(records: seq<Entry>, id: string, replacement: Entry): (r: seq<Entry>)
    ensures |r| == |records|
    ensures forall k :: 0 <= k < |r| ==> r[k] == (if records[k].id == id then replacement else records[k])
  {
    if records == [] then []
    else [if records[0].id == id then replacement else records[0]] + ReplaceById(records[1..], id, replacement)
  }

  /** `records.filter(r => r.id !== id)`. */
  function RemoveById(records: seq<Entry>, id: string): (r: seq<Entry>)
    ensures |r| == |records| - CountId(records, id)
    ensures forall e :: e in r <==> e in records && e.id != id
    ensures !HasId(records, id) ==> r == records
  {
    if records == [] then []
    else
      HasIdTail(records, id);
      (if records[0].id == id then [] else [records[0]]) + RemoveById(records[1..], id)
  }

  /** A record of the tail is a record of the list. */
  lemma HasIdTail(records: seq<Entry>, id: string)
    requires records != []
    ensures HasId(records[1..], id) ==> HasId(records, id)
  {
    if HasId(records[1..], id) {
      var k :| 0 <= k < |records[1..]| && records[1..][k].id == id;
      assert records[k + 1].id == id;
    }
  }

  /** The tail of a list with unique ids has unique ids. */
  lemma UniqueTail(records: seq<Entry>)
    requires records != [] && UniqueIds(records)
    ensures UniqueIds(records[1..])
  {
    var tail := records[1..];
    forall i, j | 0 <= i < j < |tail| ensures tail[i].id != tail[j].id {
      assert tail[i] == records[i + 1] && tail[j] == records[j + 1];
    }
  }

  /** Putting a record in front of a list with unique ids, none of them its own, keeps ids unique. */
  lemma ConsUnique(e: Entry, rest: seq<Entry>)
    requires UniqueIds(rest) && forall j :: 0 <= j < |rest| ==> rest[j].id != e.id
    ensures UniqueIds([e] + rest)
  {
    var r := [e] + rest;
    forall i, j | 0 <= i < j < |r| ensures r[i].id != r[j].id {
      if i == 0 {
        assert r[j] == rest[j - 1];
      } else {
        assert r[i] == rest[i - 1] && r[j] == rest[j - 1];
      }
    }
  }

  /** No record in the list carries `id` exactly when `CountId` is zero. */
  lemma {:induction false} CountIdZero(records: seq<Entry>, id: string)
    ensures CountId(records, id) == 0 <==> !HasId(records, id)
  {
    if records != [] {
      CountIdZero(records[1..], id);
      if HasId(records[1..], id) {
        var k :| 0 <= k < |records[1..]| && records[1..][k].id == id;
        assert records[k + 1].id == id;
      }
      if HasId(records, id) && records[0].id != id {
        var k :| 0 <= k < |records| && records[k].id == id;
        assert records[1..][k - 1].id == id;
      }
    }
  }

  /** The filter keeps the relative order: removing from a concatenation removes from each part. */
  lemma {:induction false} RemoveByIdAppend(a: seq<Entry>, b: seq<Entry>, id: string)
    ensures RemoveById(a + b, id) == RemoveById(a, id) + RemoveById(b, id)
  {
    if a == [] {
      assert a + b == b;
    } else {
      assert (a + b)[1..] == a[1..] + b;
      RemoveByIdAppend(a[1..], b, id);
    }
  }

  /** After a delete no record carries the deleted id, so a second delete of it changes nothing. */
  lemma RemoveByIdIdempotent(records: seq<Entry>, id: string)
    ensures !HasId(RemoveById(records, id), id)
    ensures RemoveById(RemoveById(records, id), id) == RemoveById(records, id)
  {
    var r := RemoveById(records, id);
    forall k | 0 <= k < |r| ensures r[k].id != id {
      assert r[k] in r;
    }
  }

  /** An edit submitted for an id that was deleted meanwhile leaves the list as it is; nothing is re-inserted. */
  lemma EditAfterDeleteIsNoOp(records: seq<Entry>, id: string, replacement: Entry)
    ensures ReplaceById(RemoveById(records, id), id, replacement) == RemoveById(records, id)
  {
    RemoveByIdIdempotent(records, id);
  }

  /** A replacement that carries the replaced id keeps every position's id. */
  lemma ReplaceKeepsIds(records: seq<Entry>, id: string, replacement: Entry)
    requires replacement.id == id
    ensures forall k :: 0 <= k < |records| ==> ReplaceById(records, id, replacement)[k].id == records[k].id
    ensures UniqueIds(records) ==> UniqueIds(ReplaceById(records, id, replacement))
  {
  }

  /** Deleting keeps ids unique. */
  lemma {:induction false} RemoveKeepsUnique(records: seq<Entry>, id: string)
    requires UniqueIds(records)
    ensures UniqueIds(RemoveById(records, id))
  {
    if records != [] {
      var tail := records[1..];
      UniqueTail(records);
      RemoveKeepsUnique(tail, id);
      var rest := RemoveById(tail, id);
      if records[0].id != id {
        forall j | 0 <= j < |rest| ensures rest[j].id != records[0].id {
          assert rest[j] in tail;
          var m :| 0 <= m < |tail| && tail[m] == rest[j];
          assert tail[m] == records[m + 1];
        }
        ConsUnique(records[0], rest);
      }
    }
  }

  /** With unique ids, deleting a present id removes exactly one record. */
  lemma {:induction false} UniqueDeleteRemovesOne(records: seq<Entry>, id: string)
    requires UniqueIds(records) && HasId(records, id)
    ensures |RemoveById(records, id)| == |records| - 1
  {
    CountUnique(records, id);
  }

  lemma {:induction false} CountUnique(records: seq<Entry>, id: string)
    requires UniqueIds(records) && HasId(records, id)
    ensures CountId(records, id) == 1
  {
    var tail := records[1..];
    UniqueTail(records);
    if records[0].id == id {
      forall k | 0 <= k < |tail| ensures tail[k].id != id {
        assert tail[k] == records[k + 1];
      }
      CountIdZero(tail, id);
    } else {
      var k :| 0 <= k < |records| && records[k].id == id;
      assert tail[k - 1].id == id;
      CountUnique(tail, id);
    }
  }

  /** Appending a record whose id is new keeps ids unique. */
  lemma AppendFreshKeepsUnique(records: seq<Entry>, e: Entry)
    requires UniqueIds(records) && !HasId(records, e.id)
    ensures UniqueIds(records + [e])
  {
    var r := records + [e];
    forall i, j | 0 <= i < j < |r| ensures r[i].id != r[j].id {
      if j == |records| {
        assert r[i] == records[i];
      } else {
        assert r[i] == records[i] && r[j] == records[j];
      }
    }
  }

  /** Appending a record whose timestamp id is already taken leaves two records with that id, and a later edit of it replaces both. */
  lemma AppendCollidingId(records: seq<Entry>, e: Entry, replacement: Entry)
    requires HasId(records, e.id)
    ensures !UniqueIds(records + [e])
    ensures forall k :: 0 <= k < |records| + 1 && (records + [e])[k].id == e.id ==>
              ReplaceById(records + [e], e.id, replacement)[k] == replacement
  {
    var k :| 0 <= k < |records| && records[k].id == e.id;
    var r := records + [e];
    assert r[k].id == r[|records|].id;
  }
}
