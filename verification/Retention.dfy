/** Which history rows retention deletes: the oldest rows of instances that ended before a cutoff. */
module Retention {
  import opened Model
  import opened Tables
  import Validation

  function ExpiredIds(db: Database, before: int): set<string> {
    set id | id in db.history && Expired(db, before, id)
  }

  /** The order of deletion: by creation time, then by identifier. */
  predicate IsOlder(history: map<string, HistoryRow>, i: string, j: string)
    requires i in history && j in history
  {
    history[i].createdAt < history[j].createdAt
      || (history[i].createdAt == history[j].createdAt && Validation.AtMost(i, j))
  }

  /** The first `limit` of the expired rows, or all of them when there are fewer. */
  predicate IsBatch(db: Database, before: int, limit: nat, ids: set<string>) {
    && ids <= ExpiredIds(db, before)
    && |ids| == (if |ExpiredIds(db, before)| <= limit then |ExpiredIds(db, before)| else limit)
    && IsOldest(db.history, ids, ExpiredIds(db, before) - ids)
  }

  predicate IsOldest(history: map<string, HistoryRow>, ids: set<string>, rest: set<string>)
    requires ids <= history.Keys && rest <= history.Keys
  {
    forall i, j {:trigger IsOlder(history, i, j)} | i in ids && j in rest :: IsOlder(history, i, j)
  }

  lemma Within(all: set<string>, part: set<string>)
    requires part <= all
    ensures |part| <= |all| && (|part| == |all| ==> part == all)
  {
    assert all == part + (all - part) && |all| == |part| + |all - part|;
  }

  lemma OlderIsTotal(history: map<string, HistoryRow>, i: string, j: string)
    requires i in history && j in history
    ensures IsOlder(history, i, j) || IsOlder(history, j, i)
  {
    Validation.AtMostIsTotal(i, j);
  }

  lemma OlderIsTransitive(history: map<string, HistoryRow>, i: string, j: string, k: string)
    requires i in history && j in history && k in history && IsOlder(history, i, j) && IsOlder(history, j, k)
    ensures IsOlder(history, i, k)
  {
    if history[i].createdAt == history[j].createdAt == history[k].createdAt {
      Validation.AtMostIsTransitive(i, j, k);
    }
  }

  /** A set of rows has an oldest one. */
  lemma {:induction false} OldestOne(history: map<string, HistoryRow>, ids: set<string>) returns (first: string)
    requires ids <= history.Keys && ids != {}
    ensures first in ids && forall j | j in ids :: IsOlder(history, first, j)
    decreases |ids|
  {
    var i :| i in ids;
    OlderIsTotal(history, i, i);
    first := i;
    if ids != {i} {
      assert ids - {i} != {} by {
        var j :| j in ids && j != i;
        assert j in ids - {i};
      }
      var rest := OldestOne(history, ids - {i});
      OlderIsTotal(history, i, rest);
      if IsOlder(history, i, rest) {
        forall j | j in ids ensures IsOlder(history, i, j) {
          if j != i {
            OlderIsTransitive(history, i, rest, j);
          }
        }
      } else {
        first := rest;
      }
    }
  }

  lemma {:induction false} BatchExists(db: Database, before: int, limit: nat) returns (ids: set<string>)
    ensures IsBatch(db, before, limit, ids)
    decreases limit
  {
    var expired := ExpiredIds(db, before);
    if limit == 0 {
      ids := {};
    } else {
      var fewer := BatchExists(db, before, limit - 1);
      var rest := expired - fewer;
      assert expired == fewer + rest && |expired| == |fewer| + |rest|;
      if rest == {} {
        ids := fewer;
      } else {
        var next := OldestOne(db.history, rest);
        ids := fewer + {next};
        OneMoreIsOldest(db.history, expired, fewer, next);
      }
    }
  }

  lemma OneMoreIsOldest(history: map<string, HistoryRow>, all: set<string>, ids: set<string>, next: string)
    requires ids <= all <= history.Keys && next in all - ids && IsOldest(history, ids, all - ids)
    requires forall j | j in all - ids :: IsOlder(history, next, j)
    ensures IsOldest(history, ids + {next}, all - (ids + {next}))
  {
    forall i, j | i in ids + {next} && j in all - (ids + {next}) ensures IsOlder(history, i, j) {
      assert j in all - ids && (i != next ==> i in ids);
    }
  }

  /** Deleting rows makes no other row expire or stay. */
  lemma PurgeLeavesRest(db: Database, before: int, ids: set<string>)
    ensures ExpiredIds(PurgeHistory(db, ids), before) == ExpiredIds(db, before) - ids
  {
    var later := PurgeHistory(db, ids);
    forall id ensures id in ExpiredIds(later, before) <==> id in ExpiredIds(db, before) - ids {
      if id in later.history {
        assert later.history[id] == db.history[id];
      }
    }
  }

  lemma PurgeTwice(db: Database, first: set<string>, second: set<string>)
    ensures PurgeHistory(PurgeHistory(db, first), second) == PurgeHistory(db, first + second)
  {
    assert (db.history - first) - second == db.history - (first + second);
  }
}
