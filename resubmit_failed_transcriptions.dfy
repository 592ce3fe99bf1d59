/**
 * The sweeper command `transcriptions:resubmit-failed`
 * (app/Console/Commands/ResubmitFailedTranscriptions.php): pages through the
 * FAILED records in chunks and dispatches one resubmission job per record.
 */
module ResubmitFailedTranscriptions {
  import opened TranscriptionStatus
  import opened Repository
  import opened Runtime
  import opened ResubmitFailedTranscription
  import opened ProcessAudioTranscription

  const ChunkSize: nat := 100
  /** `Command::SUCCESS`. */
  const CommandSuccess: int := 0

  ghost predicate StrictlyIncreasing(s: seq<int>)
  {
    forall i, j :: 0 <= i < j < |s| ==> s[i] < s[j]
  }

  lemma {:induction false} MinExists(s: set<int>)
    requires s != {}
    ensures exists m :: IsMin(s, m)
    decreases |s|
  {
    if forall x :: x !in s {
      assert false;
    }
    var y :| y in s;
    var rest := s - {y};
    if rest == {} {
      forall x | x in s ensures y <= x {
        assert x !in rest;
      }
      assert IsMin(s, y);
    } else {
      MinExists(rest);
      var m :| IsMin(rest, m);
      if y < m {
        forall x | x in s ensures y <= x {
          if x != y {
            assert x in rest;
          }
        }
        assert IsMin(s, y);
      } else {
        forall x | x in s ensures m <= x {
          if x != y {
            assert x in rest;
          }
        }
        assert IsMin(s, m);
      }
    }
  }

  predicate IsMin(s: set<int>, m: int)
  {
    m in s && forall x :: x in s ==> m <= x
  }

  /** The properties `Ascending` promises. */
  ghost predicate IsAscendingListing(r: seq<int>, s: set<int>)
  {
    && |r| == |s|
    && (forall i :: 0 <= i < |r| ==> r[i] in s)
    && (forall x :: x in s ==> x in r)
    && StrictlyIncreasing(r)
  }

  lemma AscendingStep(s: set<int>, m: int, tail: seq<int>)
    requires IsMin(s, m) && IsAscendingListing(tail, s - {m})
    ensures IsAscendingListing([m] + tail, s)
  {
    var r := [m] + tail;
    assert |s - {m}| == |s| - 1;
    forall i | 0 <= i < |r| ensures r[i] in s {
      if i > 0 {
        assert r[i] == tail[i - 1];
      }
    }
    forall x | x in s ensures x in r {
      if x != m {
        assert x in s - {m};
      }
    }
    forall i, j | 0 <= i < j < |r| ensures r[i] < r[j] {
      assert r[j] == tail[j - 1] && tail[j - 1] in s - {m};
      if i > 0 {
        assert r[i] == tail[i - 1];
      }
    }
  }

  /** The elements of a finite set of ids, smallest first. */
  function Ascending(s: set<int>): seq<int>
    decreases |s|
  {
    if s == {} then []
    else
      MinExists(s);
      var m :| IsMin(s, m);
      [m] + Ascending(s - {m})
  }

  /** `Ascending` lists every element of the set once, smallest first. */
  lemma {:induction false} AscendingIsListing(s: set<int>)
    ensures IsAscendingListing(Ascending(s), s)
    decreases |s|
  {
    if s != {} {
      var r := Ascending(s);
      var m := r[0];
      assert IsMin(s, m) && r == [m] + Ascending(s - {m});
      AscendingIsListing(s - {m});
      AscendingStep(s, m, Ascending(s - {m}));
    }
  }

  /** The ids of the FAILED records. */
  function FailedSet(rows: map<int, Record>): set<int>
  {
    set k | k in rows && rows[k].status == Failed
  }

  /** The ids of the FAILED rows, in the primary-key order `chunk()` reads them in. */
  function FailedIds(rows: map<int, Record>): seq<int>
  {
    Ascending(FailedSet(rows))
  }

  /**
   * `FailedIds` lists exactly the FAILED records, each once, smallest id
   * first.
   */
  lemma FailedIdsListing(rows: map<int, Record>)
    ensures forall k :: k in FailedIds(rows) <==> k in rows && rows[k].status == Failed
    ensures |FailedIds(rows)| == |FailedSet(rows)|
    ensures StrictlyIncreasing(FailedIds(rows))
  {
    AscendingIsListing(FailedSet(rows));
  }

  function Min(a: int, b: int): int
  {
    if a <= b then a else b
  }

  /** `offset(from)->limit(count)` over a list. */
  function Window(ids: seq<int>, from: nat, count: nat): (w: seq<int>)
    ensures |w| <= count
    ensures from <= |ids| ==> w == ids[from .. Min(from + count, |ids|)]
    ensures from >= |ids| ==> w == []
  {
    ids[Min(from, |ids|) .. Min(from + count, |ids|)]
  }

  /** The offset of page `page` (counted from 1) when pages hold `size` rows. */
  function PageOffset(page: nat, size: nat): nat
    requires page >= 1
  {
    (page - 1) * size
  }

  /**
   * The query `where('status', FAILED)->forPage(page, size)->get()`, ordered by
   * id: at most `size` FAILED records in increasing id order, namely the ones
   * that follow the first `(page - 1) * size` FAILED ids; a page shorter than
   * `size` holds the last FAILED ids.
   */
  method FailedPage(repo: AudioTranscriptionRepository, page: nat, size: nat) returns (chunk: seq<int>)
    requires page >= 1
    ensures |chunk| <= size
    ensures forall i :: 0 <= i < |chunk| ==> chunk[i] in repo.rows && repo.rows[chunk[i]].status == Failed
    ensures StrictlyIncreasing(chunk)
    ensures var ids := FailedIds(repo.rows); var from := PageOffset(page, size);
      && (from <= |ids| ==> from + |chunk| <= |ids| && chunk == ids[from .. from + |chunk|])
      && (from >= |ids| ==> chunk == [])
      && (|chunk| < size ==> from + |chunk| >= |ids|)
  {
    var ids := FailedIds(repo.rows);
    chunk := Window(ids, PageOffset(page, size), size);
    FailedIdsListing(repo.rows);
    var from := PageOffset(page, size);
    if from <= |ids| {
      forall i | 0 <= i < |chunk| ensures chunk[i] in repo.rows && repo.rows[chunk[i]].status == Failed {
        assert chunk[i] == ids[from + i];
      }
      forall i, j | 0 <= i < j < |chunk| ensures chunk[i] < chunk[j] {
        assert chunk[i] == ids[from + i] && chunk[j] == ids[from + j];
      }
    }
  }

  /** The queue after dispatching one resubmission job per id, in order. */
  function DispatchAll(q: QueueState, ids: seq<int>): QueueState
    decreases |ids|
  {
    if ids == [] then q else DispatchUnique(DispatchAll(q, ids[..|ids| - 1]), ids[|ids| - 1])
  }

  /** The ids among `ids` whose lock is not already held, in order. */
  function NotHeld(ids: seq<int>, held: set<int>): (r: seq<int>)
    ensures forall x :: x in r <==> x in ids && x !in held
    decreases |ids|
  {
    if ids == [] then []
    else
      var init := ids[..|ids| - 1];
      var last := ids[|ids| - 1];
      assert forall x :: x in ids <==> x in init || x == last;
      NotHeld(init, held) + (if last in held then [] else [last])
  }

  /** One job per id, in order. */
  function ResubmitJobs(ids: seq<int>): (jobs: seq<Job>)
    ensures |jobs| == |ids| && forall i :: 0 <= i < |ids| ==> jobs[i] == ResubmitJob(ids[i])
  {
    seq(|ids|, i requires 0 <= i < |ids| => ResubmitJob(ids[i]))
  }

  /** Dispatching a list in two parts is dispatching the whole list: the chunk boundaries do not matter. */
  lemma {:induction false} DispatchAllAppend(q: QueueState, a: seq<int>, b: seq<int>)
    ensures DispatchAll(q, a + b) == DispatchAll(DispatchAll(q, a), b)
    decreases |b|
  {
    if b == [] {
      assert a + b == a;
    } else {
      var init := b[..|b| - 1];
      assert (a + b)[..|a + b| - 1] == a + init;
      assert (a + b)[|a + b| - 1] == b[|b| - 1];
      DispatchAllAppend(q, a, init);
    }
  }

  /** Dispatching one more id of a list. */
  lemma DispatchAllNext(q: QueueState, ids: seq<int>, n: nat)
    requires n < |ids|
    ensures DispatchAll(q, ids[..n + 1]) == DispatchUnique(DispatchAll(q, ids[..n]), ids[n])
  {
    assert ids[..n + 1][..n] == ids[..n];
  }

  /**
   * Dispatching distinct ids pushes one job for every id whose lock was not
   * held, in order, and ends with every id locked.
   */
  lemma {:induction false} DispatchAllDistinct(q: QueueState, ids: seq<int>)
    requires forall i, j :: 0 <= i < j < |ids| ==> ids[i] != ids[j]
    ensures DispatchAll(q, ids).jobs == q.jobs + ResubmitJobs(NotHeld(ids, q.held))
    ensures forall x :: x in DispatchAll(q, ids).held <==> x in q.held || x in ids
    decreases |ids|
  {
    if ids != [] {
      var init := ids[..|ids| - 1];
      var last := ids[|ids| - 1];
      assert forall x :: x in ids <==> x in init || x == last;
      DispatchAllDistinct(q, init);
      var before := DispatchAll(q, init);
      assert DispatchAll(q, ids) == DispatchUnique(before, last);
      assert last !in init;
      var nh := NotHeld(init, q.held);
      if last in q.held {
        assert NotHeld(ids, q.held) == nh;
      } else {
        assert last !in before.held;
        assert NotHeld(ids, q.held) == nh + [last];
        assert ResubmitJobs(nh + [last]) == ResubmitJobs(nh) + [ResubmitJob(last)];
      }
    }
  }

  lemma {:induction false} NotHeldOfFree(ids: seq<int>, held: set<int>)
    requires forall x :: x in ids ==> x !in held
    ensures NotHeld(ids, held) == ids
    decreases |ids|
  {
    if ids != [] {
      var init := ids[..|ids| - 1];
      NotHeldOfFree(init, held);
      assert init + [ids[|ids| - 1]] == ids;
    }
  }

  /** What one run of the command does to the queue: one resubmission per FAILED record, in id order. */
  function SweepRun(rows: map<int, Record>, q: QueueState): QueueState
  {
    DispatchAll(q, FailedIds(rows))
  }

  /**
   * With no resubmission lock held for a FAILED record, the sweep appends one
   * job per FAILED record, in id order, and locks them all.
   */
  lemma SweepAppendsFailedJobs(rows: map<int, Record>, q: QueueState)
    requires forall k :: k in rows && rows[k].status == Failed ==> k !in q.held
    ensures SweepRun(rows, q).jobs == q.jobs + ResubmitJobs(FailedIds(rows))
    ensures SweepRun(rows, q).held == q.held + FailedSet(rows)
  {
    var ids := FailedIds(rows);
    FailedIdsListing(rows);
    DispatchAllDistinct(q, ids);
    NotHeldOfFree(ids, q.held);
    var held := SweepRun(rows, q).held;
    forall x ensures x in held <==> x in q.held + FailedSet(rows) {
      assert x in ids <==> x in FailedSet(rows);
    }
  }

  /** The jobs of one sweep: exactly one per FAILED record and none for a record in any other status. */
  lemma SweepJobsExactlyFailed(rows: map<int, Record>)
    ensures var jobs := ResubmitJobs(FailedIds(rows));
      && (forall k :: ResubmitJob(k) in jobs <==> k in rows && rows[k].status == Failed)
      && (forall i, j :: 0 <= i < j < |jobs| ==> jobs[i] != jobs[j])
      && |jobs| == |FailedSet(rows)|
  {
    var ids := FailedIds(rows);
    FailedIdsListing(rows);
    var jobs := ResubmitJobs(ids);
    forall k ensures ResubmitJob(k) in jobs <==> k in ids {
      if ResubmitJob(k) in jobs {
        var i :| 0 <= i < |jobs| && jobs[i] == ResubmitJob(k);
        assert ids[i] == k;
      }
      if k in ids {
        var i :| 0 <= i < |ids| && ids[i] == k;
        assert jobs[i] == ResubmitJob(k);
      }
    }
  }

  /**
   * A worker attempt whose provider call fails leaves its record for the next
   * sweep; a successful one takes it out of every later sweep.
   */
  lemma WorkerFailureIsSwept(rows: map<int, Record>, blobs: set<string>, id: int, outcome: Outcome)
    requires KeyedById(rows) && id in rows && rows[id].filePath in blobs
    ensures var after := ProcessRun(rows, blobs, id, outcome).rows;
      id in FailedIds(after) <==> !outcome.Ok?
  {
    FailedIdsListing(ProcessRun(rows, blobs, id, outcome).rows);
  }

  /**
   * A resubmission that does not succeed leaves the record FAILED, among the
   * ids every later sweep reads; one that succeeds is never read again. A
   * record that is not FAILED is left out of the sweep before and after.
   */
  lemma ResubmissionRetriesUntilSuccess(rows: map<int, Record>, blobs: set<string>, id: int, outcome: Outcome)
    requires KeyedById(rows) && id in rows
    ensures var after := ResubmitRun(rows, blobs, id, outcome).rows;
      && (rows[id].status == Failed ==>
            (id in FailedIds(after) <==> rows[id].filePath !in blobs || !outcome.Ok?))
      && (rows[id].status != Failed ==> id !in FailedIds(rows) && id !in FailedIds(after))
  {
    FailedIdsListing(rows);
    FailedIdsListing(ResubmitRun(rows, blobs, id, outcome).rows);
  }

  /** A FAILED record whose resubmission lock is free is queued by the next sweep. */
  lemma SweepQueuesUnlockedFailed(rows: map<int, Record>, q: QueueState, id: int)
    requires id in rows && rows[id].status == Failed && id !in q.held
    ensures var jobs := SweepRun(rows, q).jobs;
      |q.jobs| <= |jobs| && ResubmitJob(id) in jobs[|q.jobs|..]
  {
    var ids := FailedIds(rows);
    FailedIdsListing(rows);
    DispatchAllDistinct(q, ids);
    var nh := NotHeld(ids, q.held);
    assert id in nh;
    var i :| 0 <= i < |nh| && nh[i] == id;
    assert SweepRun(rows, q).jobs[|q.jobs|..] == ResubmitJobs(nh);
    assert ResubmitJobs(nh)[i] == ResubmitJob(id);
  }

  /** With no FAILED record the sweep dispatches nothing. */
  lemma SweepWithoutFailedIsNoop(rows: map<int, Record>, q: QueueState)
    requires forall k :: k in rows ==> rows[k].status != Failed
    ensures SweepRun(rows, q) == q
  {
  }

  /**
   * `chunk(size, ...)` over the FAILED rows: read page after page, dispatch a
   * job for every id of the page, stop at an empty page or after a short one.
   * Whatever the page size, the queue ends as `SweepRun` says.
   */
  method ChunkFailed(repo: AudioTranscriptionRepository, env: Services, size: nat)
    requires size > 0
    modifies env`queue, env`held
    ensures QueueState(env.queue, env.held) == SweepRun(repo.rows, QueueState(old(env.queue), old(env.held)))
  {
    ghost var q0 := QueueState(env.queue, env.held);
    ghost var ids := FailedIds(repo.rows);
    ghost var offset: nat := 0;
    var page: nat := 1;
    while true
      invariant page >= 1 && offset == PageOffset(page, size) && offset <= |ids|
      invariant QueueState(env.queue, env.held) == DispatchAll(q0, ids[..offset])
      decreases |ids| - offset
    {
      var count := ChunkPage(repo, env, page, size, q0, ids, offset);
      if count == 0 || count != size {
        break;
      }
      NextPageOffset(page, size);
      offset := offset + size;
      page := page + 1;
    }
  }

  /**
   * One round of `chunk`: read page `page` and, when it is not empty, run the
   * callback on it; answers how many rows the page held.
   */
  method ChunkPage(repo: AudioTranscriptionRepository, env: Services, page: nat, size: nat,
                   ghost q0: QueueState, ghost ids: seq<int>, ghost offset: nat)
    returns (count: nat)
    requires ids == FailedIds(repo.rows)
    requires size > 0 && page >= 1 && offset == PageOffset(page, size) && offset <= |ids|
    requires QueueState(env.queue, env.held) == DispatchAll(q0, ids[..offset])
    modifies env`queue, env`held
    ensures count <= size && offset + count <= |ids|
    ensures count == size ==> offset + size <= |ids|
    ensures QueueState(env.queue, env.held) == DispatchAll(q0, ids[..offset + count])
    ensures count != size ==> ids[..offset + count] == ids
  {
    var results := FailedPage(repo, page, size);
    count := |results|;
    if count > 0 {
      DispatchChunk(env, results, q0, ids, offset);
    }
  }

  lemma NextPageOffset(page: nat, size: nat)
    requires page >= 1
    ensures PageOffset(page + 1, size) == PageOffset(page, size) + size
  {
  }

  /** The `foreach` over one chunk: one dispatch per id of the chunk. */
  method DispatchChunk(env: Services, results: seq<int>, ghost q0: QueueState, ghost ids: seq<int>, ghost offset: nat)
    requires offset + |results| <= |ids| && results == ids[offset .. offset + |results|]
    requires QueueState(env.queue, env.held) == DispatchAll(q0, ids[..offset])
    modifies env`queue, env`held
    ensures QueueState(env.queue, env.held) == DispatchAll(q0, ids[..offset + |results|])
  {
    var j := 0;
    while j < |results|
      invariant 0 <= j <= |results|
      invariant QueueState(env.queue, env.held) == DispatchAll(q0, ids[..offset + j])
    {
      DispatchAllNext(q0, ids, offset + j);
      Dispatch(env, results[j]);
      j := j + 1;
    }
  }

  /** The two lines `infoConsoleOutputAndLog` writes to the log, before and after the sweep. */
  const StartLine: LogLine := LogLine(Info, "Resubmitting failed transcriptions...", map[])
  const DoneLine: LogLine := LogLine(Info, "All failed transcriptions have been queued for resubmission.", map[])

  /**
   * `handle`: logs the start, sweeps in chunks of 100, logs the end, and
   * reports success; it changes no record.
   */
  method Handle(repo: AudioTranscriptionRepository, env: Services) returns (exitCode: int)
    modifies env`queue, env`held, env`trace
    ensures exitCode == CommandSuccess
    ensures QueueState(env.queue, env.held) == SweepRun(repo.rows, QueueState(old(env.queue), old(env.held)))
    ensures env.trace == old(env.trace) + [Logged(StartLine), Logged(DoneLine)]
  {
    env.trace := env.trace + [Logged(StartLine)];
    ChunkFailed(repo, env, ChunkSize);
    env.trace := env.trace + [Logged(DoneLine)];
    return CommandSuccess;
  }
}
