/**
 * The record store (app/Repositories/AudioTranscriptionRepository.php): one
 * table of transcription records keyed by an auto-incremented id, with lookup,
 * creation, partial update and the two newest-first listings.
 */
module Repository {
  import opened Wrappers
  import opened TranscriptionStatus

  /** One row of the `audio_transcriptions` table; `createdAt` is the creation time stamp. */
  datatype Record = Record(
    id: int,
    filePath: string,
    transcription: Option<string>,
    status: Status,
    createdAt: int)

  /** The attributes handed to `create`; a `None` status means the key is absent. */
  datatype NewRecord = NewRecord(filePath: string, transcription: Option<string>, status: Option<Status>)

  /** The attributes handed to `update`: a `None` field is a key the array does not hold. */
  datatype Patch = Patch(transcription: Option<string>, status: Option<Status>)

  /** The patch that only sets the status. */
  function StatusPatch(s: Status): Patch
  {
    Patch(None, Some(s))
  }

  /** Every row is stored under its own id. */
  ghost predicate KeyedById(rows: map<int, Record>)
  {
    forall k :: k in rows ==> rows[k].id == k
  }

  /** The row after `update(data)`: the keys in the patch take its values, every other column keeps its value. */
  function Apply(r: Record, data: Patch): (u: Record)
    ensures u.id == r.id && u.filePath == r.filePath && u.createdAt == r.createdAt
    ensures data.transcription.None? ==> u.transcription == r.transcription
    ensures data.transcription.Some? ==> u.transcription == data.transcription
    ensures data.status.None? ==> u.status == r.status
    ensures data.status.Some? ==> u.status == data.status.value
  {
    var withText := if data.transcription.Some? then r.(transcription := data.transcription) else r;
    if data.status.Some? then withText.(status := data.status.value) else withText
  }

  /**
   * `a` is listed no later than `b` when the rows are ordered by `created_at`
   * descending; rows created at the same instant are listed by id, highest first.
   */
  predicate NewerOrSame(a: Record, b: Record)
  {
    a.createdAt > b.createdAt || (a.createdAt == b.createdAt && a.id >= b.id)
  }

  /** `k` is the key of the row that comes first in the newest-first order. */
  predicate IsNewest(rows: map<int, Record>, k: int)
  {
    k in rows && forall j :: j in rows ==> NewerOrSame(rows[k], rows[j])
  }

  ghost predicate NewestFirstOrder(list: seq<Record>)
  {
    forall i, j :: 0 <= i < j < |list| ==> NewerOrSame(list[i], list[j])
  }

  /** The order the source promises: `created_at` never increases along the list. */
  ghost predicate CreatedAtDescending(list: seq<Record>)
  {
    forall i, j :: 0 <= i < j < |list| ==> list[i].createdAt >= list[j].createdAt
  }

  ghost predicate DistinctIds(list: seq<Record>)
  {
    forall i, j :: 0 <= i < j < |list| ==> list[i].id != list[j].id
  }

  /** Every element of the list is a row of the table, as stored. */
  ghost predicate RowsOf(list: seq<Record>, rows: map<int, Record>)
  {
    forall i :: 0 <= i < |list| ==> list[i].id in rows && rows[list[i].id] == list[i]
  }

  lemma {:induction false} NewestExists(rows: map<int, Record>)
    requires rows.Keys != {}
    ensures exists k :: IsNewest(rows, k)
    decreases |rows.Keys|
  {
    if forall j :: j !in rows.Keys {
      assert false;
    }
    var x :| x in rows.Keys;
    var rest := rows - {x};
    assert rest.Keys == rows.Keys - {x};
    assert forall j :: j in rows ==> j == x || (j in rest && rest[j] == rows[j]);
    if rest.Keys == {} {
      assert IsNewest(rows, x);
    } else {
      NewestExists(rest);
      var y :| IsNewest(rest, y);
      if NewerOrSame(rows[x], rows[y]) {
        assert IsNewest(rows, x);
      } else {
        assert IsNewest(rows, y);
      }
    }
  }

  lemma NewestUnique(rows: map<int, Record>, a: int, b: int)
    requires KeyedById(rows)
    requires IsNewest(rows, a) && IsNewest(rows, b)
    ensures a == b
  {
    assert NewerOrSame(rows[a], rows[b]) && NewerOrSame(rows[b], rows[a]);
  }

  /** The listing properties `NewestFirst` promises, for a list of the rows of `rows`. */
  ghost predicate IsNewestFirstListing(list: seq<Record>, rows: map<int, Record>)
  {
    && |list| == |rows|
    && RowsOf(list, rows)
    && (forall k :: k in rows ==> rows[k] in list)
    && DistinctIds(list)
    && NewestFirstOrder(list)
  }

  /** Putting the newest row in front of a listing of the others lists the whole table. */
  lemma NewestFirstStep(rows: map<int, Record>, k: int, tail: seq<Record>)
    requires KeyedById(rows) && IsNewest(rows, k)
    requires IsNewestFirstListing(tail, rows - {k})
    ensures IsNewestFirstListing([rows[k]] + tail, rows)
  {
    var rest := rows - {k};
    assert rest.Keys == rows.Keys - {k};
    ConsRowsOf(rows, k, tail);
    ConsCovers(rows, k, tail);
    ConsDistinct(rows, k, tail);
    ConsOrder(rows, k, tail);
  }

  lemma ConsRowsOf(rows: map<int, Record>, k: int, tail: seq<Record>)
    requires KeyedById(rows) && k in rows && RowsOf(tail, rows - {k})
    ensures RowsOf([rows[k]] + tail, rows)
  {
    var list := [rows[k]] + tail;
    forall i | 0 <= i < |list| ensures list[i].id in rows && rows[list[i].id] == list[i] {
      if i > 0 {
        assert list[i] == tail[i - 1];
      }
    }
  }

  lemma ConsCovers(rows: map<int, Record>, k: int, tail: seq<Record>)
    requires k in rows && forall j :: j in rows - {k} ==> (rows - {k})[j] in tail
    ensures forall j :: j in rows ==> rows[j] in [rows[k]] + tail
  {
    var rest := rows - {k};
    forall j | j in rows ensures rows[j] in [rows[k]] + tail {
      if j != k {
        assert j in rest && rest[j] == rows[j];
      }
    }
  }

  lemma ConsDistinct(rows: map<int, Record>, k: int, tail: seq<Record>)
    requires KeyedById(rows) && k in rows && RowsOf(tail, rows - {k}) && DistinctIds(tail)
    ensures DistinctIds([rows[k]] + tail)
  {
    var rest := rows - {k};
    var list := [rows[k]] + tail;
    forall i, j | 0 <= i < j < |list| ensures list[i].id != list[j].id {
      assert list[j] == tail[j - 1];
      if i > 0 {
        assert list[i] == tail[i - 1];
      } else {
        assert tail[j - 1].id in rest;
      }
    }
  }

  lemma ConsOrder(rows: map<int, Record>, k: int, tail: seq<Record>)
    requires IsNewest(rows, k) && RowsOf(tail, rows - {k}) && NewestFirstOrder(tail)
    ensures NewestFirstOrder([rows[k]] + tail)
  {
    var rest := rows - {k};
    var list := [rows[k]] + tail;
    forall i, j | 0 <= i < j < |list| ensures NewerOrSame(list[i], list[j]) {
      assert list[j] == tail[j - 1];
      if i > 0 {
        assert list[i] == tail[i - 1];
      } else {
        assert tail[j - 1].id in rest;
      }
    }
  }

  /** All rows of the table, newest first: `orderBy('created_at', 'desc')->get()`. */
  function NewestFirst(rows: map<int, Record>): (list: seq<Record>)
    requires KeyedById(rows)
    ensures IsNewestFirstListing(list, rows)
    decreases |rows|
  {
    if rows.Keys == {} then
      assert rows == map[];
      []
    else
      NewestExists(rows);
      assert forall a, b :: IsNewest(rows, a) && IsNewest(rows, b) ==> a == b by {
        forall a, b | IsNewest(rows, a) && IsNewest(rows, b) ensures a == b {
          NewestUnique(rows, a, b);
        }
      }
      var k :| IsNewest(rows, k);
      var rest := rows - {k};
      assert rest.Keys == rows.Keys - {k};
      var tail := NewestFirst(rest);
      NewestFirstStep(rows, k, tail);
      [rows[k]] + tail
  }

  /** The rows of a listing whose transcription is set, in the listing's order: `whereNotNull('transcription')`. */
  function WithTranscription(list: seq<Record>): (r: seq<Record>)
    ensures forall x :: x in r <==> x in list && x.transcription.Some?
  {
    if list == [] then []
    else if list[0].transcription.Some? then [list[0]] + WithTranscription(list[1..])
    else WithTranscription(list[1..])
  }

  /** Filtering keeps the listing's order, its distinct ids and its fidelity to the table. */
  lemma {:induction false} WithTranscriptionKeepsListing(list: seq<Record>, rows: map<int, Record>)
    ensures RowsOf(list, rows) ==> RowsOf(WithTranscription(list), rows)
    ensures DistinctIds(list) ==> DistinctIds(WithTranscription(list))
    ensures NewestFirstOrder(list) ==> NewestFirstOrder(WithTranscription(list))
  {
    if list != [] {
      var tail := list[1..];
      WithTranscriptionKeepsListing(tail, rows);
      var r := WithTranscription(list);
      var rt := WithTranscription(tail);
      if RowsOf(list, rows) {
        assert RowsOf(tail, rows);
        assert forall x :: x in rt ==> x in tail;
        forall i | 0 <= i < |r| ensures r[i].id in rows && rows[r[i].id] == r[i] {
          assert r[i] in list;
        }
      }
      if DistinctIds(list) {
        assert DistinctIds(tail);
        forall i, j | 0 <= i < j < |r| ensures r[i].id != r[j].id {
          if list[0].transcription.Some? && i == 0 {
            assert r[j] in tail;
          }
        }
      }
      if NewestFirstOrder(list) {
        assert NewestFirstOrder(tail);
        forall i, j | 0 <= i < j < |r| ensures NewerOrSame(r[i], r[j]) {
          if list[0].transcription.Some? && i == 0 {
            assert r[j] in tail;
          }
        }
      }
    }
  }

  lemma NewestFirstIsDescending(list: seq<Record>)
    requires NewestFirstOrder(list)
    ensures CreatedAtDescending(list)
  {
  }

  class AudioTranscriptionRepository {
    var rows: map<int, Record>
    /** The next value of the auto-increment counter. */
    var nextId: int

    ghost predicate Valid()
      reads this
    {
      1 <= nextId && KeyedById(rows) && forall k :: k in rows ==> 1 <= k < nextId
    }

    constructor ()
      ensures Valid() && rows == map[] && nextId == 1
    {
      rows := map[];
      nextId := 1;
    }

    /** `findById`: the row with that id, or null. */
    function FindById(id: int): (r: Option<Record>)
      reads this
      requires Valid()
      ensures r.Some? <==> id in rows
      ensures r.Some? ==> r.value.id == id && rows[id] == r.value
    {
      if id in rows then Some(rows[id]) else None
    }

    /** `create`: inserts one row holding exactly the given attributes under a fresh id. */
    method Create(data: NewRecord, now: int) returns (r: Record)
      requires Valid()
      modifies this
      ensures Valid()
      ensures r.id == old(nextId) && r.id !in old(rows) && nextId == old(nextId) + 1
      ensures r.filePath == data.filePath && r.transcription == data.transcription
      ensures r.status == StatusOrDefault(data.status) && r.createdAt == now
      ensures rows == old(rows)[r.id := r]
    {
      r := Record(nextId, data.filePath, data.transcription, StatusOrDefault(data.status), now);
      rows := rows[nextId := r];
      nextId := nextId + 1;
    }

    /** `update`: writes the keys of `data` into the stored row of `r`; nothing else changes. */
    method Update(r: Record, data: Patch) returns (ok: bool)
      requires Valid() && r.id in rows
      modifies this
      ensures Valid() && ok && nextId == old(nextId)
      ensures rows == old(rows)[r.id := Apply(old(rows)[r.id], data)]
    {
      rows := rows[r.id := Apply(rows[r.id], data)];
      ok := true;
    }

    /** `getAllTranscriptions`: every row exactly once, newest first. */
    function AllTranscriptions(): (list: seq<Record>)
      reads this
      requires Valid()
      ensures |list| == |rows| && RowsOf(list, rows) && DistinctIds(list)
      ensures forall k :: k in rows ==> rows[k] in list
      ensures CreatedAtDescending(list)
    {
      var list := NewestFirst(rows);
      NewestFirstIsDescending(list);
      list
    }

    /** `getCompletedTranscriptions`: exactly the rows whose transcription is set, each once, newest first. */
    function CompletedTranscriptions(): (list: seq<Record>)
      reads this
      requires Valid()
      ensures RowsOf(list, rows) && DistinctIds(list)
      ensures forall i :: 0 <= i < |list| ==> list[i].transcription.Some?
      ensures forall k :: k in rows && rows[k].transcription.Some? ==> rows[k] in list
      ensures CreatedAtDescending(list)
    {
      var all := NewestFirst(rows);
      var list := WithTranscription(all);
      WithTranscriptionKeepsListing(all, rows);
      NewestFirstIsDescending(list);
      list
    }
  }
}
