/** The retention cleaner (`internal/workflow/cleanup.go`) over the repository. */
module Cleaner {
  import opened Model
  import opened Tables
  import opened Retention
  import R = Repository

  /** The rows in a number of whole batches. */
  function Rows(batches: nat, batch: nat): nat {
    if batches == 0 then 0 else Rows(batches - 1, batch) + batch
  }

  lemma {:induction false} RowsAre(batches: nat, batch: nat)
    ensures Rows(batches, batch) == batches * batch
  {
    if batches > 0 {
      RowsAre(batches - 1, batch);
    }
  }

  lemma Quotient(total: nat, batch: nat, calls: nat, rest: nat)
    requires batch > 0 && total == Rows(calls, batch) + rest && rest < batch
    ensures total / batch == calls
  {
    RowsAre(calls, batch);
    var k := total / batch - calls;
    assert k * batch == rest - total % batch;
    assert k >= 1 ==> k * batch >= batch;
    assert k <= -1 ==> k * batch + batch <= 0;
  }

  /** The row had expired at one of the first `calls` cutoffs. */
  predicate ExpiredByThen(start: Database, cutoff: nat -> int, calls: nat, id: string) {
    exists n: nat :: n < calls && id in ExpiredIds(start, cutoff(n))
  }

  predicate NoneFails(fails: nat -> bool, calls: nat) {
    forall n: nat | n < calls :: !fails(n)
  }

  predicate IsFixed(cutoff: nat -> int, calls: nat) {
    forall n: nat | n < calls :: cutoff(n) == cutoff(0)
  }

  /** What is left after `calls` batches have deleted the rows `gone`; a fixed cutoff deletes the oldest rows first. */
  ghost predicate Cleaned(start: Database, now: Database, cutoff: nat -> int, calls: nat, gone: set<string>) {
    && gone <= start.history.Keys && now == PurgeHistory(start, gone)
    && (forall id {:trigger ExpiredByThen(start, cutoff, calls, id)} | id in gone ::
       ExpiredByThen(start, cutoff, calls, id))
    && (IsFixed(cutoff, calls) ==>
          && gone <= ExpiredIds(start, cutoff(0))
          && IsOldest(start.history, gone, ExpiredIds(start, cutoff(0)) - gone))
  }

  /** One more batch is another round of the same. */
  lemma CleanedMore(start: Database, now: Database, cutoff: nat -> int, calls: nat, gone: set<string>, batch: nat,
                    ids: set<string>)
    requires Cleaned(start, now, cutoff, calls, gone) && IsBatch(now, cutoff(calls), batch, ids)
    ensures Cleaned(start, PurgeHistory(now, ids), cutoff, calls + 1, gone + ids)
    ensures ids !! gone && ids <= ExpiredIds(start, cutoff(calls))
  {
    PurgeLeavesRest(start, cutoff(calls), gone);
    PurgeTwice(start, gone, ids);
    GoneMore(start, cutoff, calls, gone, ids);
    if IsFixed(cutoff, calls + 1) {
      FixedLonger(cutoff, calls);
      OldestMore(start.history, now.history, ExpiredIds(start, cutoff(calls)), gone, ids);
    }
  }

  lemma GoneMore(start: Database, cutoff: nat -> int, calls: nat, gone: set<string>, ids: set<string>)
    requires forall id {:trigger ExpiredByThen(start, cutoff, calls, id)} | id in gone ::
             ExpiredByThen(start, cutoff, calls, id)
    requires ids <= ExpiredIds(start, cutoff(calls))
    ensures forall id {:trigger ExpiredByThen(start, cutoff, calls + 1, id)} | id in gone + ids ::
              ExpiredByThen(start, cutoff, calls + 1, id)
  {
    forall id | id in gone + ids ensures ExpiredByThen(start, cutoff, calls + 1, id) {
      assert id in gone ==> ExpiredByThen(start, cutoff, calls, id);
    }
  }

  lemma FixedLonger(cutoff: nat -> int, calls: nat)
    requires IsFixed(cutoff, calls + 1)
    ensures IsFixed(cutoff, calls) && cutoff(calls) == cutoff(0)
  {
  }

  lemma OldestMore(history: map<string, HistoryRow>, left: map<string, HistoryRow>, all: set<string>,
                   gone: set<string>, ids: set<string>)
    requires left == history - gone && gone <= all <= history.Keys && ids <= all - gone
    requires IsOldest(history, gone, all - gone) && IsOldest(left, ids, all - gone - ids)
    ensures IsOldest(history, gone + ids, all - (gone + ids))
  {
    forall i, j | i in gone + ids && j in all - (gone + ids) ensures IsOlder(history, i, j) {
      if i in ids {
        assert IsOlder(left, i, j);
      } else {
        assert j in all - gone;
      }
    }
  }

  /** Where the loop stands after `calls` whole batches. */
  ghost predicate InProgress(start: Database, now: Database, cutoff: nat -> int, calls: nat, gone: set<string>,
                             batch: nat)
  {
    Cleaned(start, now, cutoff, calls, gone) && |gone| == Rows(calls, batch)
  }

  /**
   Where it ends: nothing is expired at the last cutoff, after one call for each whole batch and one more; all that had
   expired at that cutoff is gone, and with a fixed cutoff nothing else.
   */
  ghost predicate IsDone(start: Database, now: Database, cutoff: nat -> int, calls: nat, gone: set<string>, batch: nat)
    requires batch > 0
  {
    && calls == |gone| / batch + 1 && Cleaned(start, now, cutoff, calls, gone)
    && ExpiredIds(now, cutoff(calls - 1)) == {} && ExpiredIds(start, cutoff(calls - 1)) <= gone
    && (IsFixed(cutoff, calls) ==> gone == ExpiredIds(start, cutoff(0)))
  }

  lemma NothingYet(start: Database, cutoff: nat -> int, batch: nat)
    ensures InProgress(start, start, cutoff, 0, {}, batch)
  {
    assert start.history - {} == start.history;
  }

  /** The rows of a batch are new, so the counts add up. */
  lemma BatchCounts(start: Database, now: Database, cutoff: nat -> int, calls: nat, gone: set<string>, batch: nat,
                    ids: set<string>)
    requires Cleaned(start, now, cutoff, calls, gone) && IsBatch(now, cutoff(calls), batch, ids)
    ensures Cleaned(start, PurgeHistory(now, ids), cutoff, calls + 1, gone + ids)
    ensures |ids| <= batch && |gone + ids| == |gone| + |ids| <= |start.history.Keys|
  {
    CleanedMore(start, now, cutoff, calls, gone, batch, ids);
    Within(start.history.Keys, gone + ids);
  }

  lemma LastBatch(start: Database, now: Database, cutoff: nat -> int, calls: nat, gone: set<string>, batch: nat,
                  ids: set<string>)
    requires batch > 0 && |gone| == Rows(calls, batch) + |ids| && |ids| < batch
    requires IsBatch(now, cutoff(calls), batch, ids)
    requires Cleaned(start, PurgeHistory(now, ids), cutoff, calls + 1, gone)
    ensures IsDone(start, PurgeHistory(now, ids), cutoff, calls + 1, gone, batch)
  {
    ShortBatchIsLast(now, cutoff(calls), batch, ids);
    Quotient(|gone|, batch, calls, |ids|);
    NothingLeft(start, PurgeHistory(now, ids), cutoff, calls + 1, gone, batch);
  }

  /** A batch is either whole, or the last one, after which nothing is expired. */
  lemma BatchEnds(start: Database, now: Database, cutoff: nat -> int, calls: nat, gone: set<string>, batch: nat,
                  ids: set<string>)
    requires batch > 0 && InProgress(start, now, cutoff, calls, gone, batch) && IsBatch(now, cutoff(calls), batch, ids)
    ensures |ids| <= batch && |gone + ids| == |gone| + |ids| <= |start.history.Keys|
    ensures |ids| == batch ==> InProgress(start, PurgeHistory(now, ids), cutoff, calls + 1, gone + ids, batch)
    ensures |ids| < batch ==> IsDone(start, PurgeHistory(now, ids), cutoff, calls + 1, gone + ids, batch)
  {
    BatchCounts(start, now, cutoff, calls, gone, batch, ids);
    if |ids| < batch {
      LastBatch(start, now, cutoff, calls, gone + ids, batch, ids);
    }
  }

  lemma ShortBatchIsLast(now: Database, before: int, batch: nat, ids: set<string>)
    requires IsBatch(now, before, batch, ids) && |ids| < batch
    ensures ExpiredIds(PurgeHistory(now, ids), before) == {}
  {
    Within(ExpiredIds(now, before), ids);
    PurgeLeavesRest(now, before, ids);
  }

  lemma NothingLeft(start: Database, now: Database, cutoff: nat -> int, calls: nat, gone: set<string>, batch: nat)
    requires calls > 0 && batch > 0 && calls == |gone| / batch + 1 && Cleaned(start, now, cutoff, calls, gone)
    requires ExpiredIds(now, cutoff(calls - 1)) == {}
    ensures IsDone(start, now, cutoff, calls, gone, batch)
  {
    AllGone(start, now, cutoff, calls, gone);
  }

  /** With a fixed cutoff, exactly the rows that had expired are gone when nothing is expired any more. */
  lemma AllGone(start: Database, now: Database, cutoff: nat -> int, calls: nat, gone: set<string>)
    requires calls > 0 && Cleaned(start, now, cutoff, calls, gone) && ExpiredIds(now, cutoff(calls - 1)) == {}
    ensures IsFixed(cutoff, calls) ==> gone == ExpiredIds(start, cutoff(0))
    ensures ExpiredIds(start, cutoff(calls - 1)) <= gone
  {
    var expired := ExpiredIds(start, cutoff(calls - 1));
    PurgeLeavesRest(start, cutoff(calls - 1), gone);
    forall id | id in expired ensures id in gone {
      assert id !in expired - gone;
    }
  }

  class RetentionCleaner {
    const repository: R.Repository
    const batchSize: nat

    constructor (repository: R.Repository, batchSize: int)
      ensures this.repository == repository && this.batchSize == (if batchSize <= 0 then 500 else batchSize)
    {
      this.repository := repository;
      this.batchSize := if batchSize <= 0 then 500 else batchSize;
    }

    /** One round: a whole batch, or the last rows. */
    method DeleteBatch(cutoff: nat -> int, calls: nat, fails: bool, ghost start: Database, ghost gone0: set<string>)
      returns (deleted: Result<nat>, ghost gone: set<string>)
      requires batchSize > 0 && InProgress(start, repository.Contents(), cutoff, calls, gone0, batchSize)
      modifies repository
      ensures fails <==> deleted.Err?
      ensures deleted.Err? ==> gone == gone0 && repository.Contents() == old(repository.Contents())
      ensures deleted.Ok? && deleted.value < batchSize ==>
                IsDone(start, repository.Contents(), cutoff, calls + 1, gone, batchSize)
      ensures deleted.Ok? && deleted.value >= batchSize ==>
                && |gone0| < |gone| <= |start.history.Keys|
                && InProgress(start, repository.Contents(), cutoff, calls + 1, gone, batchSize)
    {
      ghost var now := repository.Contents();
      ghost var ids;
      deleted, ids := repository.DeleteTaskHistoryBefore(cutoff(calls), batchSize, fails);
      gone := gone0;
      if deleted.Ok? {
        BatchEnds(start, now, cutoff, calls, gone0, batchSize, ids);
        gone := gone0 + ids;
      }
    }

    /**
     Deletes batch after batch until a short one.  `cutoff(n)` is the cutoff computed for call `n`, and `fails(n)` says
     that this call fails.  On a quiet store it deletes only rows that had expired at the cutoff of some call, and ends
     when no row is expired at the last one, after D / batchSize + 1 calls for D deleted rows; with a fixed cutoff these
     are exactly the expired rows, oldest first.  A failing call ends it after whole batches.
     */
    method Clean(cutoff: nat -> int, fails: nat -> bool) returns (r: Result<()>, calls: nat, ghost gone: set<string>)
      requires batchSize > 0
      modifies repository
      ensures calls > 0
      ensures if r.Ok? then IsDone(old(repository.Contents()), repository.Contents(), cutoff, calls, gone, batchSize)
              else InProgress(old(repository.Contents()), repository.Contents(), cutoff, calls - 1, gone, batchSize)
      ensures if r.Ok? then NoneFails(fails, calls) else NoneFails(fails, calls - 1) && fails(calls - 1)
    {
      calls, gone := 0, {};
      ghost var start := repository.Contents();
      NothingYet(start, cutoff, batchSize);
      while true
        invariant InProgress(start, repository.Contents(), cutoff, calls, gone, batchSize)
        invariant |gone| <= |start.history.Keys| && NoneFails(fails, calls)
        decreases |start.history.Keys| - |gone|
      {
        var deleted;
        deleted, gone := DeleteBatch(cutoff, calls, fails(calls), start, gone);
        calls := calls + 1;
        if deleted.Err? {
          return Err(deleted.error), calls, gone;
        }
        if deleted.value < batchSize {
          return Ok(()), calls, gone;
        }
      }
    }
  }
}
