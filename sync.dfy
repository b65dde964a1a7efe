/**
 * The feed-synchronisation half of `Feed` (`get_all`, `get_new`, `add`).
 * The fetch of each tracked feed (`Feed::from_url`, run as one spawned task
 * per row and awaited in row order) is an input: one `Result` per row.
 */
module Sync {
  import opened Wrappers
  import opened Foreign
  import opened AppError
  import opened Canvas
  import Db

  /** How a call ends: with a returned `Result`, or with a panic at a `todo!()`. */
  datatype Outcome<T> = Return(result: Result<T, MyError>) | Panic(site: string)

  // ---------------------------------------------------------------------
  // get_all

  /**
   * Awaiting the fetch tasks in order with `?`: every feed in row order, or
   * the first failure.
   */
  function Collect(fetched: seq<Result<Feed, MyError>>): (r: Result<seq<Feed>, MyError>)
    ensures r.Ok? <==> forall i :: 0 <= i < |fetched| ==> fetched[i].Ok?
    ensures r.Ok? ==> |r.value| == |fetched| && forall i :: 0 <= i < |fetched| ==> r.value[i] == fetched[i].value
    ensures r.Err? ==> exists k :: 0 <= k < |fetched| && fetched[k] == Err(r.error)
                                && forall j :: 0 <= j < k ==> fetched[j].Ok?
  {
    if fetched == [] then Ok([])
    else if fetched[0].Err? then Err(fetched[0].error)
    else
      match Collect(fetched[1..])
      case Err(e) =>
        var k :| 0 <= k < |fetched[1..]| && fetched[1..][k] == Err(e) && forall j :: 0 <= j < k ==> fetched[1..][j].Ok?;
        assert fetched[k + 1] == Err(e);
        Err(e)
      case Ok(rest) => Ok([fetched[0].value] + rest)
  }

  /**
   * `Feed::get_all`: `lookup` is the answer of the row query as `get_all`
   * reads it; `fetched[i]` is the fetch of row `i`'s url. No checkpoint is
   * read or written.
   */
  method GetAll(lookup: Result<Option<seq<Db.FeedRow>>, MyError>, fetched: seq<Result<Feed, MyError>>)
    returns (r: Result<Option<seq<Feed>>, MyError>)
    requires lookup.Ok? && lookup.value.Some? ==> |fetched| == |lookup.value.value|
    ensures lookup.Err? ==> r == Err(lookup.error)
    ensures lookup == Ok(None) ==> r == Ok(None)
    ensures lookup.Ok? && lookup.value.Some? ==>
      r == match Collect(fetched) case Ok(feeds) => Ok(Some(feeds)) case Err(e) => Err(e)
  {
    var rows;
    match lookup {
      case Err(e) => return Err(e);
      case Ok(None) => return Ok(None);
      case Ok(Some(v)) => rows := v;
    }
    var feeds: seq<Feed> := [];
    assert fetched[0..] == fetched;
    assert forall rest: seq<Feed> :: [] + rest == rest;
    for i := 0 to |rows|
      invariant Collect(fetched) == match Collect(fetched[i..])
        case Ok(rest) => Ok(feeds + rest)
        case Err(e) => Err(e)
    {
      assert fetched[i..][0] == fetched[i] && fetched[i..][1..] == fetched[i + 1..];
      match fetched[i] {
        case Err(e) =>
          assert Collect(fetched[i..]) == Err(e);
          return Err(e);
        case Ok(feed) =>
          assert forall rest :: feeds + ([feed] + rest) == (feeds + [feed]) + rest;
          feeds := feeds + [feed];
      }
    }
    assert fetched[|rows|..] == [];
    assert feeds + [] == feeds;
    r := Ok(Some(feeds));
  }

  // ---------------------------------------------------------------------
  // get_new

  /**
   * Which rows a checkpoint write for row `row` and its fetched `feed` hits.
   * `get_new` as written filters the update on the fetched feed's canvas id;
   * `ByRowId` is the update keyed on the row's own primary key.
   */
  datatype CheckpointKey = ByCanvasId | ByRowId

  predicate Targets(key: CheckpointKey, row: Db.FeedRow, feed: Feed, target: Db.FeedRow)
  {
    match key
    case ByCanvasId => target.canvasId == feed.id
    case ByRowId => target.id == row.id
  }

  /** The update statement for one row's new checkpoint `m`. */
  function WriteCheckpoint(table: seq<Db.FeedRow>, key: CheckpointKey, row: Db.FeedRow, feed: Feed, m: int): (table': seq<Db.FeedRow>)
    ensures |table'| == |table|
    ensures forall j :: 0 <= j < |table| ==>
      table'[j] == if Targets(key, row, feed, table[j]) then table[j].(lastUpdate := m) else table[j]
  {
    match key
    case ByCanvasId => Db.SetLastUpdateWhereCanvasId(table, feed.id, m)
    case ByRowId => Db.SetLastUpdateWhereId(table, row.id, m)
  }

  /** Puts the feeds already collected in front of the outcome of the rest. */
  function Prepend(done: seq<Feed>, rest: (Result<seq<Feed>, MyError>, seq<Db.FeedRow>)): (Result<seq<Feed>, MyError>, seq<Db.FeedRow>)
  {
    match rest.0
    case Ok(feeds) => (Ok(done + feeds), rest.1)
    case Err(e) => (Err(e), rest.1)
  }

  /**
   * One iteration of the `get_new` loop for a row read as `row`: the filtered
   * feed and the table after its checkpoint update, or the error that ends
   * the loop (the fetch failed, or the update failed with `fault`).
   */
  function Step(table: seq<Db.FeedRow>, row: Db.FeedRow, fetched: Result<Feed, MyError>,
                fault: Option<string>, key: CheckpointKey): (r: Result<(Feed, seq<Db.FeedRow>), MyError>)
    ensures fetched.Err? ==> r == Err(fetched.error)
    ensures r.Ok? ==> fetched.Ok? && r.value.0 == FeedAfter(fetched.value, row.lastUpdate)
    ensures r.Ok? && Latest(r.value.0.announcements).None? ==> r.value.1 == table
    ensures r.Ok? && Latest(r.value.0.announcements).Some? ==>
      r.value.1 == WriteCheckpoint(table, key, row, fetched.value, Latest(r.value.0.announcements).value)
    ensures r.Err? && fetched.Ok? ==> fault.Some? && Latest(FeedAfter(fetched.value, row.lastUpdate).announcements).Some?
    ensures fetched.Ok? && fault.Some? && Latest(FeedAfter(fetched.value, row.lastUpdate).announcements).Some? ==>
      r == Err(From(Diesel(QueryFailed(fault.value))))
  {
    match fetched
    case Err(e) => Err(e)
    case Ok(feed) =>
      var kept := FeedAfter(feed, row.lastUpdate);
      match Latest(kept.announcements)
      case None => Ok((kept, table))
      case Some(m) =>
        if fault.Some? then Err(From(Diesel(QueryFailed(fault.value))))
        else Ok((kept, WriteCheckpoint(table, key, row, feed, m)))
  }

  /**
   * The loop of `get_new` over rows `rows` (read before the loop) against the
   * live feeds table `table`: the feeds produced and the table afterwards.
   * `faults[i]` is the database's answer to row `i`'s checkpoint update, if
   * one is made. The first failure ends the loop; updates already made stay.
   */
  function SyncRows(table: seq<Db.FeedRow>, rows: seq<Db.FeedRow>, fetched: seq<Result<Feed, MyError>>,
                    faults: seq<Option<string>>, key: CheckpointKey): (r: (Result<seq<Feed>, MyError>, seq<Db.FeedRow>))
    requires |fetched| == |rows| && |faults| == |rows|
    ensures |r.1| == |table|
    decreases |rows|
  {
    if rows == [] then (Ok([]), table)
    else
      match Step(table, rows[0], fetched[0], faults[0], key)
      case Err(e) => (Err(e), table)
      case Ok((kept, table1)) => Prepend([kept], SyncRows(table1, rows[1..], fetched[1..], faults[1..], key))
  }

  /** Everything `get_new` does, from the row query on. */
  function GetNewSpec(table: seq<Db.FeedRow>, lookup: Result<Option<seq<Db.FeedRow>>, MyError>, pool: Option<string>,
                      fetched: seq<Result<Feed, MyError>>, faults: seq<Option<string>>, key: CheckpointKey)
    : (r: (Result<Option<seq<Feed>>, MyError>, seq<Db.FeedRow>))
    requires lookup.Ok? && lookup.value.Some? ==> |fetched| == |lookup.value.value| == |faults|
    ensures lookup.Err? ==> r == (Err(lookup.error), table)
    ensures lookup == Ok(None) ==> r == (Ok(None), table)
    ensures lookup.Ok? && lookup.value.Some? && pool.Some? ==> r == (Err(From(Pool(pool.value))), table)
    ensures r.0 == Ok(None) ==> lookup == Ok(None)
  {
    match lookup
    case Err(e) => (Err(e), table)
    case Ok(None) => (Ok(None), table)
    case Ok(Some(rows)) =>
      if pool.Some? then (Err(From(Pool(pool.value))), table)
      else
        var (r, table') := SyncRows(table, rows, fetched, faults, key);
        (match r case Ok(feeds) => Ok(Some(feeds)) case Err(e) => Err(e), table')
  }

  /**
   * `Feed::get_new`: for each tracked row in order, awaits its fetch, keeps
   * the announcements after the row's `last_update` and, when some were kept,
   * writes their latest publish time to the rows whose canvas id is the
   * fetched feed's id.
   */
  method GetNew(store: Db.Store, lookup: Result<Option<seq<Db.FeedRow>>, MyError>, pool: Option<string>,
                fetched: seq<Result<Feed, MyError>>, faults: seq<Option<string>>)
    returns (r: Result<Option<seq<Feed>>, MyError>)
    requires store.Valid()
    requires lookup.Ok? && lookup.value.Some? ==> |fetched| == |lookup.value.value| == |faults|
    modifies store
    ensures store.Valid()
    ensures store.subscriptions == old(store.subscriptions)
    ensures store.nextFeedId == old(store.nextFeedId) && store.nextSubscriptionId == old(store.nextSubscriptionId)
    ensures (r, store.feeds) == GetNewSpec(old(store.feeds), lookup, pool, fetched, faults, ByCanvasId)
  {
    var rows;
    match lookup {
      case Err(e) => return Err(e);
      case Ok(None) => return Ok(None);
      case Ok(Some(v)) => rows := v;
    }
    if pool.Some? {
      return Err(From(Pool(pool.value)));
    }
    var feeds: seq<Feed> := [];
    var i := 0;
    assert rows[0..] == rows && fetched[0..] == fetched && faults[0..] == faults;
    assert forall rest: seq<Feed> :: [] + rest == rest;
    while i < |rows|
      invariant 0 <= i <= |rows|
      invariant store.Valid()
      invariant store.subscriptions == old(store.subscriptions)
      invariant store.nextFeedId == old(store.nextFeedId) && store.nextSubscriptionId == old(store.nextSubscriptionId)
      invariant SyncRows(old(store.feeds), rows, fetched, faults, ByCanvasId)
             == Prepend(feeds, SyncRows(store.feeds, rows[i..], fetched[i..], faults[i..], ByCanvasId))
    {
      assert rows[i..][0] == rows[i] && fetched[i..][0] == fetched[i] && faults[i..][0] == faults[i];
      assert rows[i..][1..] == rows[i + 1..] && fetched[i..][1..] == fetched[i + 1..] && faults[i..][1..] == faults[i + 1..];
      ghost var before := store.feeds;
      var kept := SyncRow(store, rows[i], fetched[i], faults[i]);
      if kept.Err? {
        assert SyncRows(before, rows[i..], fetched[i..], faults[i..], ByCanvasId) == (Err(kept.error), before);
        assert SyncRows(old(store.feeds), rows, fetched, faults, ByCanvasId) == (Err(kept.error), store.feeds);
        return Err(kept.error);
      }
      PrependTwice(feeds, kept.value, SyncRows(store.feeds, rows[i + 1..], fetched[i + 1..], faults[i + 1..], ByCanvasId));
      feeds := feeds + [kept.value];
      i := i + 1;
    }
    assert rows[i..] == [] && fetched[i..] == [] && faults[i..] == [];
    assert feeds + [] == feeds;
    assert SyncRows(old(store.feeds), rows, fetched, faults, ByCanvasId) == (Ok(feeds), store.feeds);
    r := Ok(Some(feeds));
  }

  /** The body of the `get_new` loop for one row. */
  method SyncRow(store: Db.Store, row: Db.FeedRow, fetched: Result<Feed, MyError>, fault: Option<string>)
    returns (r: Result<Feed, MyError>)
    requires store.Valid()
    modifies store
    ensures store.Valid()
    ensures store.subscriptions == old(store.subscriptions)
    ensures store.nextFeedId == old(store.nextFeedId) && store.nextSubscriptionId == old(store.nextSubscriptionId)
    ensures Step(old(store.feeds), row, fetched, fault, ByCanvasId)
         == match r case Ok(kept) => Ok((kept, store.feeds)) case Err(e) => Err(e)
    ensures r.Err? ==> store.feeds == old(store.feeds)
  {
    var feed;
    match fetched {
      case Err(e) => return Err(e);
      case Ok(f) => feed := f;
    }
    var kept, latest := After(feed, row.lastUpdate);
    if latest.Some? {
      var written := store.SetLastUpdate(feed.id, latest.value, fault);
      if written.Err? {
        return Err(From(Diesel(written.error)));
      }
    }
    r := Ok(kept);
  }

  /** Moving one more feed from the rest to the front. */
  lemma PrependTwice(done: seq<Feed>, kept: Feed, rest: (Result<seq<Feed>, MyError>, seq<Db.FeedRow>))
    ensures Prepend(done, Prepend([kept], rest)) == Prepend(done + [kept], rest)
  {
    if rest.0.Ok? {
      assert done + ([kept] + rest.0.value) == (done + [kept]) + rest.0.value;
    }
  }

  // ---------------------------------------------------------------------
  // Properties of the get_new loop

  /** A successful sync returns one filtered feed per row, in row order. */
  lemma {:induction false} SyncKeepsRowOrder(table: seq<Db.FeedRow>, rows: seq<Db.FeedRow>, fetched: seq<Result<Feed, MyError>>,
                                             faults: seq<Option<string>>, key: CheckpointKey)
    requires |fetched| == |rows| && |faults| == |rows|
    requires SyncRows(table, rows, fetched, faults, key).0.Ok?
    ensures var feeds := SyncRows(table, rows, fetched, faults, key).0.value;
      && |feeds| == |rows|
      && forall k :: 0 <= k < |rows| ==> fetched[k].Ok? && feeds[k] == FeedAfter(fetched[k].value, rows[k].lastUpdate)
    decreases |rows|
  {
    if rows != [] {
      var step := Step(table, rows[0], fetched[0], faults[0], key);
      assert step.Ok?;
      var kept, table1 := step.value.0, step.value.1;
      var tail := SyncRows(table1, rows[1..], fetched[1..], faults[1..], key);
      assert SyncRows(table, rows, fetched, faults, key) == Prepend([kept], tail);
      assert tail.0.Ok?;
      SyncKeepsRowOrder(table1, rows[1..], fetched[1..], faults[1..], key);
      var feeds := SyncRows(table, rows, fetched, faults, key).0.value;
      assert feeds == [kept] + tail.0.value;
      assert fetched[0].Ok? && feeds[0] == FeedAfter(fetched[0].value, rows[0].lastUpdate);
      forall k | 1 <= k < |rows|
        ensures fetched[k].Ok? && feeds[k] == FeedAfter(fetched[k].value, rows[k].lastUpdate)
      {
        assert fetched[k] == fetched[1..][k - 1] && rows[k] == rows[1..][k - 1];
      }
    }
  }

  /** A failed fetch anywhere makes the whole sync fail. */
  lemma FetchFailureAbortsSync(table: seq<Db.FeedRow>, rows: seq<Db.FeedRow>, fetched: seq<Result<Feed, MyError>>,
                               faults: seq<Option<string>>, key: CheckpointKey, k: nat)
    requires |fetched| == |rows| && |faults| == |rows|
    requires k < |rows| && fetched[k].Err?
    ensures SyncRows(table, rows, fetched, faults, key).0.Err?
  {
    if SyncRows(table, rows, fetched, faults, key).0.Ok? {
      SyncKeepsRowOrder(table, rows, fetched, faults, key);
    }
  }

  /**
   * When row `k`'s fetch is the first failure, the sync fails with that error
   * and the table keeps every checkpoint the rows before `k` wrote.
   */
  lemma {:induction false} EarlierCheckpointsSurviveAbort(table: seq<Db.FeedRow>, rows: seq<Db.FeedRow>, fetched: seq<Result<Feed, MyError>>,
                                                          faults: seq<Option<string>>, key: CheckpointKey, k: nat)
    requires |fetched| == |rows| && |faults| == |rows|
    requires k < |rows| && fetched[k].Err?
    requires SyncRows(table, rows[..k], fetched[..k], faults[..k], key).0.Ok?
    ensures SyncRows(table, rows, fetched, faults, key)
         == (Err(fetched[k].error), SyncRows(table, rows[..k], fetched[..k], faults[..k], key).1)
    decreases k
  {
    if k > 0 {
      var rows', fetched', faults' := rows[..k], fetched[..k], faults[..k];
      PrefixTail(rows, k);
      PrefixTail(fetched, k);
      PrefixTail(faults, k);
      var step := Step(table, rows[0], fetched[0], faults[0], key);
      assert step.Ok?;
      var (kept, table1) := step.value;
      assert SyncRows(table, rows', fetched', faults', key)
          == Prepend([kept], SyncRows(table1, rows'[1..], fetched'[1..], faults'[1..], key));
      EarlierCheckpointsSurviveAbort(table1, rows[1..], fetched[1..], faults[1..], key, k - 1);
    }
  }

  /**
   * When row `k` is the first to fail because its checkpoint update fails,
   * the sync fails with the converted database error and the table keeps
   * every checkpoint the rows before `k` wrote.
   */
  lemma {:induction false} UpdateFailureAbortsSync(table: seq<Db.FeedRow>, rows: seq<Db.FeedRow>, fetched: seq<Result<Feed, MyError>>,
                                                   faults: seq<Option<string>>, key: CheckpointKey, k: nat)
    requires |fetched| == |rows| && |faults| == |rows|
    requires k < |rows| && fetched[k].Ok? && faults[k].Some?
    requires Latest(FeedAfter(fetched[k].value, rows[k].lastUpdate).announcements).Some?
    requires SyncRows(table, rows[..k], fetched[..k], faults[..k], key).0.Ok?
    ensures SyncRows(table, rows, fetched, faults, key)
         == (Err(From(Diesel(QueryFailed(faults[k].value)))), SyncRows(table, rows[..k], fetched[..k], faults[..k], key).1)
    decreases k
  {
    if k > 0 {
      var rows', fetched', faults' := rows[..k], fetched[..k], faults[..k];
      PrefixTail(rows, k);
      PrefixTail(fetched, k);
      PrefixTail(faults, k);
      var step := Step(table, rows[0], fetched[0], faults[0], key);
      assert step.Ok?;
      var (kept, table1) := step.value;
      assert SyncRows(table, rows', fetched', faults', key)
          == Prepend([kept], SyncRows(table1, rows'[1..], fetched'[1..], faults'[1..], key));
      UpdateFailureAbortsSync(table1, rows[1..], fetched[1..], faults[1..], key, k - 1);
    }
  }

  /** The head and tail of a non-empty prefix. */
  lemma PrefixTail<T>(s: seq<T>, k: nat)
    requires 0 < k <= |s|
    ensures s[..k][0] == s[0] && s[..k][1..] == s[1..][..k - 1]
  {
  }

  /** No tracked row's checkpoint is newer than the snapshot of any row that writes to it. */
  ghost predicate SnapshotNotBehind(table: seq<Db.FeedRow>, rows: seq<Db.FeedRow>, fetched: seq<Result<Feed, MyError>>, key: CheckpointKey)
    requires |fetched| == |rows|
  {
    forall k, j :: 0 <= k < |rows| && 0 <= j < |table| && fetched[k].Ok? && Targets(key, rows[k], fetched[k].value, table[j])
      ==> table[j].lastUpdate <= rows[k].lastUpdate
  }

  /** No tracked row is written by two different rows of the snapshot. */
  ghost predicate WritesDisjoint(table: seq<Db.FeedRow>, rows: seq<Db.FeedRow>, fetched: seq<Result<Feed, MyError>>, key: CheckpointKey)
    requires |fetched| == |rows|
  {
    forall k1, k2, j :: 0 <= k1 < k2 < |rows| && 0 <= j < |table| && fetched[k1].Ok? && fetched[k2].Ok?
      && Targets(key, rows[k1], fetched[k1].value, table[j])
      ==> !Targets(key, rows[k2], fetched[k2].value, table[j])
  }

  /** Only checkpoints change, and none moves backward. */
  ghost predicate CheckpointsAdvanced(table: seq<Db.FeedRow>, table': seq<Db.FeedRow>)
  {
    && |table'| == |table|
    && forall j :: 0 <= j < |table| ==>
         table'[j] == table[j].(lastUpdate := table'[j].lastUpdate) && table'[j].lastUpdate >= table[j].lastUpdate
  }

  /** Moving forward twice is moving forward. */
  lemma AdvancedTransitive(t0: seq<Db.FeedRow>, t1: seq<Db.FeedRow>, t2: seq<Db.FeedRow>)
    requires CheckpointsAdvanced(t0, t1) && CheckpointsAdvanced(t1, t2)
    ensures CheckpointsAdvanced(t0, t2)
  {
    forall j | 0 <= j < |t0|
      ensures t2[j] == t0[j].(lastUpdate := t2[j].lastUpdate) && t2[j].lastUpdate >= t0[j].lastUpdate
    {
      assert t1[j] == t0[j].(lastUpdate := t1[j].lastUpdate);
    }
  }

  /** One row's update moves only the checkpoints it targets, and forward. */
  lemma StepAdvances(table: seq<Db.FeedRow>, row: Db.FeedRow, feed: Feed, fault: Option<string>, key: CheckpointKey)
    requires forall j :: 0 <= j < |table| && Targets(key, row, feed, table[j]) ==> table[j].lastUpdate <= row.lastUpdate
    requires Step(table, row, Ok(feed), fault, key).Ok?
    ensures var table1 := Step(table, row, Ok(feed), fault, key).value.1;
      && CheckpointsAdvanced(table, table1)
      && forall j :: 0 <= j < |table| && !Targets(key, row, feed, table[j]) ==> table1[j] == table[j]
  {
    var kept := FeedAfter(feed, row.lastUpdate);
    match Latest(kept.announcements) {
      case None =>
      case Some(m) =>
        AfterThenAfterLatest(feed, row.lastUpdate, m);
    }
  }

  /**
   * Whatever the fetches return and wherever the loop stops, a checkpoint
   * never moves backward as long as every row that writes a checkpoint read
   * it no older than it is and no checkpoint is written by two rows.
   */
  lemma {:induction false} CheckpointsNeverRegress(table: seq<Db.FeedRow>, rows: seq<Db.FeedRow>, fetched: seq<Result<Feed, MyError>>,
                                                   faults: seq<Option<string>>, key: CheckpointKey)
    requires |fetched| == |rows| && |faults| == |rows|
    requires SnapshotNotBehind(table, rows, fetched, key)
    requires WritesDisjoint(table, rows, fetched, key)
    ensures CheckpointsAdvanced(table, SyncRows(table, rows, fetched, faults, key).1)
    decreases |rows|
  {
    if rows == [] || Step(table, rows[0], fetched[0], faults[0], key).Err? {
      assert SyncRows(table, rows, fetched, faults, key).1 == table;
    } else {
      var feed := fetched[0].value;
      var table1 := Step(table, rows[0], fetched[0], faults[0], key).value.1;
      assert forall j :: 0 <= j < |table| && Targets(key, rows[0], feed, table[j]) ==> table[j].lastUpdate <= rows[0].lastUpdate;
      StepAdvances(table, rows[0], feed, faults[0], key);
      SuffixStillSafe(table, table1, rows, fetched, key);
      CheckpointsNeverRegress(table1, rows[1..], fetched[1..], faults[1..], key);
      AdvancedTransitive(table, table1, SyncRows(table1, rows[1..], fetched[1..], faults[1..], key).1);
    }
  }

  /** After row 0's update the remaining rows still satisfy both conditions. */
  lemma SuffixStillSafe(table: seq<Db.FeedRow>, table1: seq<Db.FeedRow>, rows: seq<Db.FeedRow>,
                        fetched: seq<Result<Feed, MyError>>, key: CheckpointKey)
    requires |fetched| == |rows| && rows != [] && fetched[0].Ok?
    requires SnapshotNotBehind(table, rows, fetched, key)
    requires WritesDisjoint(table, rows, fetched, key)
    requires CheckpointsAdvanced(table, table1)
    requires forall j :: 0 <= j < |table| && !Targets(key, rows[0], fetched[0].value, table[j]) ==> table1[j] == table[j]
    ensures SnapshotNotBehind(table1, rows[1..], fetched[1..], key)
    ensures WritesDisjoint(table1, rows[1..], fetched[1..], key)
  {
    forall k, j | 0 <= k < |rows[1..]| && 0 <= j < |table1| && fetched[1..][k].Ok?
                  && Targets(key, rows[1..][k], fetched[1..][k].value, table1[j])
      ensures table1[j].lastUpdate <= rows[1..][k].lastUpdate
    {
      assert table1[j] == table[j].(lastUpdate := table1[j].lastUpdate);
      assert Targets(key, rows[k + 1], fetched[k + 1].value, table[j]);
      assert !Targets(key, rows[0], fetched[0].value, table[j]);
    }
    forall k1, k2, j | 0 <= k1 < k2 < |rows[1..]| && 0 <= j < |table1| && fetched[1..][k1].Ok? && fetched[1..][k2].Ok?
                       && Targets(key, rows[1..][k1], fetched[1..][k1].value, table1[j])
      ensures !Targets(key, rows[1..][k2], fetched[1..][k2].value, table1[j])
    {
      assert table1[j] == table[j].(lastUpdate := table1[j].lastUpdate);
      assert Targets(key, rows[k1 + 1], fetched[k1 + 1].value, table[j]);
    }
  }

  ghost predicate DistinctRowIds(table: seq<Db.FeedRow>)
  {
    forall i, j :: 0 <= i < j < |table| ==> table[i].id != table[j].id
  }

  /**
   * Keyed on the row's primary key, a sync over a fresh read of the table
   * never moves any checkpoint backward, whatever the fetches return.
   */
  lemma RowKeyedSyncNeverRegresses(table: seq<Db.FeedRow>, fetched: seq<Result<Feed, MyError>>, faults: seq<Option<string>>)
    requires |fetched| == |table| && |faults| == |table|
    requires DistinctRowIds(table)
    ensures CheckpointsAdvanced(table, SyncRows(table, table, fetched, faults, ByRowId).1)
  {
    CheckpointsNeverRegress(table, table, fetched, faults, ByRowId);
  }

  /**
   * The store's key invariant is what the row-keyed guarantee needs: on any
   * valid state of the tables, a row-keyed sync over a fresh read of the
   * feeds never moves a checkpoint backward.
   */
  lemma ValidStoreRowKeyedSyncNeverRegresses(t: Db.Tables, fetched: seq<Result<Feed, MyError>>, faults: seq<Option<string>>)
    requires |fetched| == |t.feeds| && |faults| == |t.feeds|
    requires Db.KeysValid(t)
    ensures DistinctRowIds(t.feeds)
    ensures CheckpointsAdvanced(t.feeds, SyncRows(t.feeds, t.feeds, fetched, faults, ByRowId).1)
  {
    RowKeyedSyncNeverRegresses(t.feeds, fetched, faults);
  }

  /**
   * Keyed on the canvas id as written, the same holds when canvas ids are
   * unique and every url still serves the feed its row was created for.
   */
  lemma CanvasKeyedSyncNeverRegressesWhenIdsMatch(table: seq<Db.FeedRow>, fetched: seq<Result<Feed, MyError>>, faults: seq<Option<string>>)
    requires |fetched| == |table| && |faults| == |table|
    requires Db.UniqueCanvasIds(table)
    requires forall k :: 0 <= k < |table| && fetched[k].Ok? ==> fetched[k].value.id == table[k].canvasId
    ensures CheckpointsAdvanced(table, SyncRows(table, table, fetched, faults, ByCanvasId).1)
  {
    CheckpointsNeverRegress(table, table, fetched, faults, ByCanvasId);
  }

  /**
   * Keyed on the canvas id as written, a row whose url now serves another
   * tracked feed moves that feed's checkpoint backward: here row 2's fetch
   * returns feed "a" with an announcement at 50, and row 1 ("a", checkpoint
   * 100) is set back to 50 while row 2 itself stays at 0.
   */
  lemma CanvasKeyedSyncCanRegress()
    ensures var a := Announcement("t", "e", 50, 50, Link("alternate", "h"), Author("n"), Content("html", "c"));
      var table := [Db.FeedRow(1, "a", "u1", 100), Db.FeedRow(2, "b", "u2", 0)];
      var fetched: seq<Result<Feed, MyError>> := [Ok(Feed("x", "a", "A", 0, Link("self", "u1"), [])),
                                                  Ok(Feed("x", "a", "A", 0, Link("self", "u2"), [a]))];
      && DistinctRowIds(table) && Db.UniqueCanvasIds(table)
      && SyncRows(table, table, fetched, [None, None], ByCanvasId).1
         == [Db.FeedRow(1, "a", "u1", 50), Db.FeedRow(2, "b", "u2", 0)]
      && SyncRows(table, table, fetched, [None, None], ByRowId).1
         == [Db.FeedRow(1, "a", "u1", 100), Db.FeedRow(2, "b", "u2", 50)]
  {
    var a := Announcement("t", "e", 50, 50, Link("alternate", "h"), Author("n"), Content("html", "c"));
    var table := [Db.FeedRow(1, "a", "u1", 100), Db.FeedRow(2, "b", "u2", 0)];
    var f1 := Feed("x", "a", "A", 0, Link("self", "u1"), []);
    var f2 := Feed("x", "a", "A", 0, Link("self", "u2"), [a]);
    var fetched: seq<Result<Feed, MyError>> := [Ok(f1), Ok(f2)];
    assert [a][..0] == [];
    assert PublishedAfter([a], 0) == [a];
    assert Latest([a]) == Some(50);
    assert FeedAfter(f1, 100).announcements == [];
    assert table[1..] == [table[1]] && fetched[1..] == [Ok(f2)];
    var byCanvas := WriteCheckpoint(table, ByCanvasId, table[1], f2, 50);
    assert byCanvas == [Db.FeedRow(1, "a", "u1", 50), Db.FeedRow(2, "b", "u2", 0)];
    var byRow := WriteCheckpoint(table, ByRowId, table[1], f2, 50);
    assert byRow == [Db.FeedRow(1, "a", "u1", 100), Db.FeedRow(2, "b", "u2", 50)];
  }

  /** A row after its own update: the latest publish time kept, or as it was when nothing was kept. */
  function Advanced(row: Db.FeedRow, feed: Feed): (row': Db.FeedRow)
    ensures row' == row.(lastUpdate := row'.lastUpdate)
    ensures row'.lastUpdate >= row.lastUpdate
    ensures row'.lastUpdate != row.lastUpdate <==> FeedAfter(feed, row.lastUpdate).announcements != []
    ensures Latest(FeedAfter(feed, row.lastUpdate).announcements).Some? ==>
      row'.lastUpdate == Latest(FeedAfter(feed, row.lastUpdate).announcements).value
  {
    match Latest(FeedAfter(feed, row.lastUpdate).announcements)
    case None => row
    case Some(m) => row.(lastUpdate := m)
  }

  /** Each row of `rows` advanced against its fetched feed, in order. */
  function AdvancedRows(rows: seq<Db.FeedRow>, fetched: seq<Result<Feed, MyError>>): (rows': seq<Db.FeedRow>)
    requires |fetched| == |rows|
    requires forall k :: 0 <= k < |rows| ==> fetched[k].Ok?
    ensures |rows'| == |rows|
  {
    if rows == [] then []
    else [Advanced(rows[0], fetched[0].value)] + AdvancedRows(rows[1..], fetched[1..])
  }

  /** Row `k` of `AdvancedRows` is row `k` advanced against fetch `k`. */
  lemma {:induction false} AdvancedRowsPointwise(rows: seq<Db.FeedRow>, fetched: seq<Result<Feed, MyError>>)
    requires |fetched| == |rows|
    requires forall k :: 0 <= k < |rows| ==> fetched[k].Ok?
    ensures forall k :: 0 <= k < |rows| ==> AdvancedRows(rows, fetched)[k] == Advanced(rows[k], fetched[k].value)
  {
    if rows != [] {
      var tail := AdvancedRows(rows[1..], fetched[1..]);
      assert AdvancedRows(rows, fetched) == [Advanced(rows[0], fetched[0].value)] + tail;
      AdvancedRowsPointwise(rows[1..], fetched[1..]);
      forall k | 1 <= k < |rows|
        ensures AdvancedRows(rows, fetched)[k] == Advanced(rows[k], fetched[k].value)
      {
        assert AdvancedRows(rows, fetched)[k] == tail[k - 1];
        assert rows[1..][k - 1] == rows[k] && fetched[1..][k - 1] == fetched[k];
      }
    }
  }

  /**
   * When every fetch and update succeeds and row `k` of the snapshot writes
   * exactly table row `base + k`, those rows end advanced and the rows
   * before `base` are untouched.
   */
  lemma {:induction false} SyncSetsOwnCheckpoints(table: seq<Db.FeedRow>, rows: seq<Db.FeedRow>, fetched: seq<Result<Feed, MyError>>,
                                                  faults: seq<Option<string>>, key: CheckpointKey, base: nat)
    requires |fetched| == |rows| && |faults| == |rows| && base + |rows| == |table|
    requires table[base..] == rows
    requires forall k :: 0 <= k < |rows| ==> fetched[k].Ok? && faults[k].None?
    requires forall k, j :: 0 <= k < |rows| && 0 <= j < |table| ==>
               (Targets(key, rows[k], fetched[k].value, table[j]) <==> j == base + k)
    ensures var res := SyncRows(table, rows, fetched, faults, key);
      res.0.Ok? && res.1 == table[..base] + AdvancedRows(rows, fetched)
    decreases |rows|
  {
    if rows == [] {
      assert table[..base] == table;
    } else {
      OwnStep(table, rows, fetched, faults, key, base);
      var table1 := Step(table, rows[0], fetched[0], faults[0], key).value.1;
      SyncSetsOwnCheckpoints(table1, rows[1..], fetched[1..], faults[1..], key, base + 1);
      var front, x, tail := table[..base], Advanced(rows[0], fetched[0].value), AdvancedRows(rows[1..], fetched[1..]);
      assert AdvancedRows(rows, fetched) == [x] + tail;
      RowsConcatAssoc(front, [x], tail);
    }
  }

  lemma RowsConcatAssoc(a: seq<Db.FeedRow>, b: seq<Db.FeedRow>, c: seq<Db.FeedRow>)
    ensures (a + b) + c == a + (b + c)
  {
  }

  /** Row 0's update in `SyncSetsOwnCheckpoints`: the rest of the rows meet its conditions again. */
  lemma OwnStep(table: seq<Db.FeedRow>, rows: seq<Db.FeedRow>, fetched: seq<Result<Feed, MyError>>,
                faults: seq<Option<string>>, key: CheckpointKey, base: nat)
    requires |fetched| == |rows| && |faults| == |rows| && base + |rows| == |table| && rows != []
    requires table[base..] == rows
    requires forall k :: 0 <= k < |rows| ==> fetched[k].Ok? && faults[k].None?
    requires forall k, j :: 0 <= k < |rows| && 0 <= j < |table| ==>
               (Targets(key, rows[k], fetched[k].value, table[j]) <==> j == base + k)
    ensures Step(table, rows[0], fetched[0], faults[0], key).Ok?
    ensures var step := Step(table, rows[0], fetched[0], faults[0], key).value;
      && |step.1| == |table|
      && step.1[base + 1..] == rows[1..]
      && step.1[..base + 1] == table[..base] + [Advanced(rows[0], fetched[0].value)]
      && SyncRows(table, rows, fetched, faults, key) == Prepend([step.0], SyncRows(step.1, rows[1..], fetched[1..], faults[1..], key))
      && forall k, j :: 0 <= k < |rows[1..]| && 0 <= j < |step.1| ==>
           (Targets(key, rows[1..][k], fetched[1..][k].value, step.1[j]) <==> j == base + 1 + k)
  {
    var feed := fetched[0].value;
    assert table[base] == rows[0];
    StepSetsOwnCheckpoint(table, rows[0], feed, faults[0], key, base);
    var table1 := Step(table, rows[0], fetched[0], faults[0], key).value.1;
    var front, x := table[..base], Advanced(rows[0], feed);
    assert table1 == front + [x] + table[base + 1..];
    assert table[base + 1..] == rows[1..];
    assert table1[base + 1..] == rows[1..];
    assert table1[..base + 1] == front + [x];
    OwnTargetsShift(table, table1, rows, fetched, key, base);
  }

  /** Rows `1..` still write exactly their own table rows after row 0's update. */
  lemma OwnTargetsShift(table: seq<Db.FeedRow>, table1: seq<Db.FeedRow>, rows: seq<Db.FeedRow>,
                        fetched: seq<Result<Feed, MyError>>, key: CheckpointKey, base: nat)
    requires |fetched| == |rows| && rows != [] && |table1| == |table|
    requires forall k :: 0 <= k < |rows| ==> fetched[k].Ok?
    requires forall j :: 0 <= j < |table| ==> table1[j].id == table[j].id && table1[j].canvasId == table[j].canvasId
    requires forall k, j :: 0 <= k < |rows| && 0 <= j < |table| ==>
               (Targets(key, rows[k], fetched[k].value, table[j]) <==> j == base + k)
    ensures forall k, j :: 0 <= k < |rows[1..]| && 0 <= j < |table1| ==>
               (Targets(key, rows[1..][k], fetched[1..][k].value, table1[j]) <==> j == base + 1 + k)
  {
    forall k, j | 0 <= k < |rows[1..]| && 0 <= j < |table1|
      ensures Targets(key, rows[1..][k], fetched[1..][k].value, table1[j]) <==> j == base + 1 + k
    {
      assert Targets(key, rows[k + 1], fetched[k + 1].value, table[j]) <==> j == base + (k + 1);
    }
  }

  /** One successful row update that targets exactly table row `base`. */
  lemma StepSetsOwnCheckpoint(table: seq<Db.FeedRow>, row: Db.FeedRow, feed: Feed, fault: Option<string>,
                              key: CheckpointKey, base: nat)
    requires base < |table| && table[base] == row && fault.None?
    requires forall j :: 0 <= j < |table| ==> (Targets(key, row, feed, table[j]) <==> j == base)
    ensures var step := Step(table, row, Ok(feed), fault, key);
      && step.Ok?
      && step.value.1 == table[..base] + [Advanced(row, feed)] + table[base + 1..]
      && |step.value.1| == |table|
      && forall j :: 0 <= j < |table| ==> step.value.1[j].id == table[j].id && step.value.1[j].canvasId == table[j].canvasId
  {
    var table1 := Step(table, row, Ok(feed), fault, key).value.1;
    assert forall j :: 0 <= j < |table| && j != base ==> table1[j] == table[j];
    assert table1[base] == Advanced(row, feed);
    ReplacedAt(table, table1, base);
  }

  /** A table that differs from `table` only at `base`. */
  lemma ReplacedAt(table: seq<Db.FeedRow>, table1: seq<Db.FeedRow>, base: nat)
    requires base < |table| == |table1|
    requires forall j :: 0 <= j < |table| && j != base ==> table1[j] == table[j]
    ensures table1 == table[..base] + [table1[base]] + table[base + 1..]
  {
  }

  /**
   * Keyed on the row's primary key, a fully successful sync sets every
   * row's checkpoint to the latest publish time `after` kept for it, and
   * leaves the rows where nothing was kept as they were.
   */
  lemma RowKeyedSyncSetsCheckpoints(table: seq<Db.FeedRow>, fetched: seq<Result<Feed, MyError>>, faults: seq<Option<string>>)
    requires |fetched| == |table| && |faults| == |table|
    requires DistinctRowIds(table)
    requires forall k :: 0 <= k < |table| ==> fetched[k].Ok? && faults[k].None?
    ensures var res := SyncRows(table, table, fetched, faults, ByRowId);
      res.0.Ok? && res.1 == AdvancedRows(table, fetched)
  {
    forall k, j | 0 <= k < |table| && 0 <= j < |table|
      ensures Targets(ByRowId, table[k], fetched[k].value, table[j]) <==> j == 0 + k
    {
      if j < k || k < j {
        assert table[j].id != table[k].id;
      }
    }
    assert table[0..] == table && table[..0] == [];
    SyncSetsOwnCheckpoints(table, table, fetched, faults, ByRowId, 0);
  }

  /** Keyed on the canvas id as written, the same holds when every row's url serves its own feed. */
  lemma CanvasKeyedSyncSetsCheckpointsWhenIdsMatch(table: seq<Db.FeedRow>, fetched: seq<Result<Feed, MyError>>, faults: seq<Option<string>>)
    requires |fetched| == |table| && |faults| == |table|
    requires Db.UniqueCanvasIds(table)
    requires forall k :: 0 <= k < |table| ==> fetched[k].Ok? && faults[k].None? && fetched[k].value.id == table[k].canvasId
    ensures var res := SyncRows(table, table, fetched, faults, ByCanvasId);
      res.0.Ok? && res.1 == AdvancedRows(table, fetched)
  {
    forall k, j | 0 <= k < |table| && 0 <= j < |table|
      ensures Targets(ByCanvasId, table[k], fetched[k].value, table[j]) <==> j == 0 + k
    {
      if j < k || k < j {
        assert table[j].canvasId != table[k].canvasId;
      }
    }
    assert table[0..] == table && table[..0] == [];
    SyncSetsOwnCheckpoints(table, table, fetched, faults, ByCanvasId, 0);
  }

  /** Advancing a row twice against the same feed is advancing it once. */
  lemma AdvancedIdempotent(row: Db.FeedRow, feed: Feed)
    ensures Advanced(Advanced(row, feed), feed) == Advanced(row, feed)
    ensures FeedAfter(feed, Advanced(row, feed).lastUpdate).announcements == []
  {
    match Latest(FeedAfter(feed, row.lastUpdate).announcements) {
      case None =>
      case Some(m) =>
        AfterThenAfterLatest(feed, row.lastUpdate, m);
        PublishedAfterComposes(feed.announcements, row.lastUpdate, m);
    }
  }

  /**
   * Syncing again, row-keyed, against feeds that have not changed finds no
   * new announcement for any row and writes no checkpoint.
   */
  lemma RowKeyedResyncFindsNothing(table: seq<Db.FeedRow>, fetched: seq<Result<Feed, MyError>>, faults: seq<Option<string>>)
    requires |fetched| == |table| && |faults| == |table|
    requires DistinctRowIds(table)
    requires forall k :: 0 <= k < |table| ==> fetched[k].Ok? && faults[k].None?
    ensures var table1 := SyncRows(table, table, fetched, faults, ByRowId).1;
      var again := SyncRows(table1, table1, fetched, faults, ByRowId);
      && again.1 == table1
      && again.0.Ok? && forall k :: 0 <= k < |again.0.value| ==> again.0.value[k].announcements == []
  {
    RowKeyedSyncSetsCheckpoints(table, fetched, faults);
    var table1 := AdvancedRows(table, fetched);
    AdvancedRowsPointwise(table, fetched);
    assert DistinctRowIds(table1) by {
      forall i, j | 0 <= i < j < |table1|
        ensures table1[i].id != table1[j].id
      {
        assert table1[i].id == table[i].id && table1[j].id == table[j].id;
      }
    }
    RowKeyedSyncSetsCheckpoints(table1, fetched, faults);
    AdvancedRowsIdempotent(table, fetched);
    SyncKeepsRowOrder(table1, table1, fetched, faults, ByRowId);
    forall k | 0 <= k < |table1|
      ensures FeedAfter(fetched[k].value, table1[k].lastUpdate).announcements == []
    {
      AdvancedIdempotent(table[k], fetched[k].value);
    }
  }

  /**
   * Syncing again, keyed on the canvas id as written, against feeds that have
   * not changed finds nothing and writes nothing, when canvas ids are unique
   * and every row's url serves its own feed.
   */
  lemma CanvasKeyedResyncFindsNothing(table: seq<Db.FeedRow>, fetched: seq<Result<Feed, MyError>>, faults: seq<Option<string>>)
    requires |fetched| == |table| && |faults| == |table|
    requires Db.UniqueCanvasIds(table)
    requires forall k :: 0 <= k < |table| ==> fetched[k].Ok? && faults[k].None? && fetched[k].value.id == table[k].canvasId
    ensures var table1 := SyncRows(table, table, fetched, faults, ByCanvasId).1;
      var again := SyncRows(table1, table1, fetched, faults, ByCanvasId);
      && again.1 == table1
      && again.0.Ok? && forall k :: 0 <= k < |again.0.value| ==> again.0.value[k].announcements == []
  {
    CanvasKeyedSyncSetsCheckpointsWhenIdsMatch(table, fetched, faults);
    var table1 := AdvancedRows(table, fetched);
    AdvancedRowsPointwise(table, fetched);
    assert Db.UniqueCanvasIds(table1) by {
      forall i, j | 0 <= i < j < |table1|
        ensures table1[i].canvasId != table1[j].canvasId
      {
        assert table1[i].canvasId == table[i].canvasId && table1[j].canvasId == table[j].canvasId;
      }
    }
    assert forall k :: 0 <= k < |table1| ==> fetched[k].value.id == table1[k].canvasId;
    CanvasKeyedSyncSetsCheckpointsWhenIdsMatch(table1, fetched, faults);
    AdvancedRowsIdempotent(table, fetched);
    SyncKeepsRowOrder(table1, table1, fetched, faults, ByCanvasId);
    forall k | 0 <= k < |table1|
      ensures FeedAfter(fetched[k].value, table1[k].lastUpdate).announcements == []
    {
      AdvancedIdempotent(table[k], fetched[k].value);
    }
  }

  /** Advancing every row a second time against the same feeds changes nothing. */
  lemma AdvancedRowsIdempotent(rows: seq<Db.FeedRow>, fetched: seq<Result<Feed, MyError>>)
    requires |fetched| == |rows|
    requires forall k :: 0 <= k < |rows| ==> fetched[k].Ok?
    ensures AdvancedRows(AdvancedRows(rows, fetched), fetched) == AdvancedRows(rows, fetched)
  {
    var once := AdvancedRows(rows, fetched);
    AdvancedRowsPointwise(rows, fetched);
    AdvancedRowsPointwise(once, fetched);
    forall k | 0 <= k < |rows|
      ensures AdvancedRows(once, fetched)[k] == once[k]
    {
      AdvancedIdempotent(rows[k], fetched[k].value);
    }
  }

  // ---------------------------------------------------------------------
  // Feed::add

  /** The outcomes of the fetch and of each database call `Feed::add` makes. */
  datatype AddEnv = AddEnv(
    fetched: Result<Feed, MyError>,
    pool: Option<string>,
    canvasQuery: Option<string>,
    urlQuery: Option<string>,
    insert: Option<string>)

  const ADD_FETCH_FAILED: string := "Cold not deserialize xml file"
  const ALREADY_TRACKED: string := "blablabla"

  /**
   * `Feed::add(url)`: fetches the url; a feed whose canvas id is not tracked
   * yet is inserted with checkpoint `UNIX_EPOCH`. A tracked canvas id under a
   * known url is an error; under a new url (the unwritten "backup feed" path)
   * and on a failed existence query the code panics at `todo!()`.
   */
  function AddFeedSpec(t: Db.Tables, url: string, env: AddEnv): (res: (Outcome<()>, Db.Tables))
    ensures res.0 != Return(Ok(())) ==> res.1 == t
    ensures env.fetched.Err? ==> res.0 == Return(Err(New(ADD_FETCH_FAILED)))
    ensures res.0 == Return(Ok(())) <==>
      && env.fetched.Ok? && env.pool.None? && env.canvasQuery.None? && env.insert.None?
      && !Db.HasCanvasId(t.feeds, env.fetched.value.id)
    ensures res.0 == Return(Ok(())) ==>
      res.1 == Db.WithFeed(t, env.fetched.value.id, url, UNIX_EPOCH)
    ensures Db.KeysValid(t) ==> Db.KeysValid(res.1)
    ensures Db.UniqueCanvasIds(t.feeds) ==> Db.UniqueCanvasIds(res.1.feeds)
  {
    if env.fetched.Err? then (Return(Err(New(ADD_FETCH_FAILED))), t)
    else if env.pool.Some? then (Return(Err(From(Pool(env.pool.value)))), t)
    else
      var feed := env.fetched.value;
      match Db.CanvasIdExists(t.feeds, feed.id, env.canvasQuery)
      case Err(_) => (Panic("canvas id query failed"), t)
      case Ok(true) =>
        (match Db.UrlExists(t.feeds, url, env.urlQuery)
         case Err(_) => Panic("url query failed")
         case Ok(false) => Panic("add to backup feeds")
         case Ok(true) => Return(Err(New(ALREADY_TRACKED))), t)
      case Ok(false) =>
        if env.insert.Some? then (Return(Err(From(Diesel(QueryFailed(env.insert.value))))), t)
        else (Return(Ok(())), Db.WithFeed(t, feed.id, url, UNIX_EPOCH))
  }

  /** The feed `url` serves is already tracked under that url: nothing is inserted. */
  lemma AddKnownFeedFails(t: Db.Tables, url: string, env: AddEnv)
    requires env.fetched.Ok? && env.pool.None? && env.canvasQuery.None? && env.urlQuery.None?
    requires Db.HasCanvasId(t.feeds, env.fetched.value.id) && Db.HasUrl(t.feeds, url)
    ensures AddFeedSpec(t, url, env) == (Return(Err(New(ALREADY_TRACKED))), t)
  {
  }

  method AddFeed(store: Db.Store, url: string, env: AddEnv) returns (r: Outcome<()>)
    requires store.Valid()
    modifies store
    ensures store.Valid()
    ensures (r, store.State()) == AddFeedSpec(old(store.State()), url, env)
  {
    if env.fetched.Err? {
      return Return(Err(New(ADD_FETCH_FAILED)));
    }
    var feed := env.fetched.value;
    if env.pool.Some? {
      return Return(Err(From(Pool(env.pool.value))));
    }
    match Db.CanvasIdExists(store.feeds, feed.id, env.canvasQuery) {
      case Err(_) =>
        return Panic("canvas id query failed");
      case Ok(true) =>
        match Db.UrlExists(store.feeds, url, env.urlQuery) {
          case Err(_) => return Panic("url query failed");
          case Ok(false) => return Panic("add to backup feeds");
          case Ok(true) =>
        }
      case Ok(false) =>
        var inserted := store.InsertFeed(feed.id, url, UNIX_EPOCH, env.insert);
        if inserted.Err? {
          return Return(Err(From(Diesel(inserted.error))));
        }
        return Return(Ok(()));
    }
    r := Return(Err(New(ALREADY_TRACKED)));
  }
}
