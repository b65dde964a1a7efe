/**
 * `Subscription::add`: subscribes a Discord channel to the feed a url
 * serves, inserting the feed first (through `Feed::add`) when its canvas id
 * is not tracked yet.
 */
module Subscriptions {
  import opened Wrappers
  import opened Foreign
  import opened AppError
  import opened Canvas
  import Db
  import Sync

  /**
   * The outcomes of everything `Subscription::add` does outside the model:
   * its own fetch of the url, the pool checkout, the id query, what
   * `Feed::add` meets (it fetches the url a second time), the id query after
   * `Feed::add`, and the subscription insert.
   */
  datatype SubscribeEnv = SubscribeEnv(
    fetched: Result<Feed, MyError>,
    pool: Option<string>,
    lookup: Option<string>,
    add: Sync.AddEnv,
    relookup: Option<string>,
    insert: Option<string>)

  /** The subscription insert with the feed row id found. */
  function Insert(t: Db.Tables, serverId: string, channelId: string, feedId: int, fault: Option<string>): (res: (Sync.Outcome<()>, Db.Tables))
    ensures fault.None? ==> res == (Sync.Return(Ok(())), Db.WithSubscription(t, serverId, channelId, feedId))
    ensures fault.Some? ==> res == (Sync.Return(Err(From(Diesel(QueryFailed(fault.value))))), t)
  {
    if fault.Some? then (Sync.Return(Err(From(Diesel(QueryFailed(fault.value))))), t)
    else (Sync.Return(Ok(())), Db.WithSubscription(t, serverId, channelId, feedId))
  }

  /** Everything `Subscription::add(server_id, channel_id, url)` does. */
  function AddSpec(t: Db.Tables, serverId: string, channelId: string, url: string, env: SubscribeEnv): (res: (Sync.Outcome<()>, Db.Tables))
    ensures env.fetched.Err? ==> res == (Sync.Return(Err(env.fetched.error)), t)
    ensures res.0 != Sync.Return(Ok(())) ==> res.1.subscriptions == t.subscriptions
    ensures res.1.feeds == t.feeds
         || (|res.1.feeds| == |t.feeds| + 1 && res.1.feeds == t.feeds + [Db.FeedRow(t.nextFeedId, res.1.feeds[|t.feeds|].canvasId, url, UNIX_EPOCH)])
    ensures res.0 == Sync.Return(Ok(())) ==>
      && env.fetched.Ok?
      && |res.1.subscriptions| == |t.subscriptions| + 1
      && res.1.subscriptions == t.subscriptions + [Db.SubscriptionRow(t.nextSubscriptionId, serverId, channelId, res.1.subscriptions[|t.subscriptions|].feedId)]
      && exists j :: 0 <= j < |res.1.feeds| && res.1.feeds[j].canvasId == env.fetched.value.id
                     && res.1.feeds[j].id == res.1.subscriptions[|t.subscriptions|].feedId
    ensures Db.KeysValid(t) ==> Db.KeysValid(res.1)
    ensures Db.UniqueCanvasIds(t.feeds) ==> Db.UniqueCanvasIds(res.1.feeds)
  {
    match env.fetched
    case Err(e) => (Sync.Return(Err(e)), t)
    case Ok(feed) =>
      if env.pool.Some? then (Sync.Return(Err(From(Pool(env.pool.value)))), t)
      else
        match Db.FeedIdByCanvasId(t.feeds, feed.id, env.lookup)
        case Ok(id) => Insert(t, serverId, channelId, id, env.insert)
        case Err(NotFound) =>
          var (added, t1) := Sync.AddFeedSpec(t, url, env.add);
          (match added
           case Panic(site) => (Sync.Panic(site), t1)
           case Return(Err(e)) => (Sync.Return(Err(e)), t1)
           case Return(Ok(_)) =>
             match Db.FeedIdByCanvasId(t1.feeds, feed.id, env.relookup)
             case Err(e) => (Sync.Return(Err(From(Diesel(e)))), t1)
             case Ok(id) => Insert(t1, serverId, channelId, id, env.insert))
        case Err(e) => (Sync.Return(Err(From(Diesel(e)))), t)
  }

  /** Subscribing keeps every subscription pointing at a tracked feed row. */
  lemma AddKeepsSubscriptionsResolved(t: Db.Tables, serverId: string, channelId: string, url: string, env: SubscribeEnv)
    requires Db.SubscriptionsResolve(t)
    ensures Db.SubscriptionsResolve(AddSpec(t, serverId, channelId, url, env).1)
  {
    var t' := AddSpec(t, serverId, channelId, url, env).1;
    forall i | 0 <= i < |t'.subscriptions|
      ensures exists j :: 0 <= j < |t'.feeds| && t'.feeds[j].id == t'.subscriptions[i].feedId
    {
      if i < |t.subscriptions| {
        assert t'.subscriptions[i] == t.subscriptions[i];
        var j :| 0 <= j < |t.feeds| && t.feeds[j].id == t.subscriptions[i].feedId;
        assert t'.feeds[j] == t.feeds[j];
      }
    }
  }

  /** The row that a tracked canvas id resolves to. */
  lemma LookupFindsTracked(rows: seq<Db.FeedRow>, k: nat, canvasId: string)
    requires Db.UniqueCanvasIds(rows) && k < |rows| && rows[k].canvasId == canvasId
    ensures Db.FeedIdByCanvasId(rows, canvasId, None) == Ok(rows[k].id)
  {
    var r := Db.GetByCanvasId(rows, canvasId, None);
    assert rows[k] in rows;
  }

  /**
   * A feed already tracked is reused: the new subscription points at its row
   * and the feeds table is left as it was.
   */
  lemma TrackedFeedIsReused(t: Db.Tables, serverId: string, channelId: string, url: string, env: SubscribeEnv, k: nat)
    requires Db.UniqueCanvasIds(t.feeds)
    requires env.fetched.Ok? && env.pool.None? && env.lookup.None? && env.insert.None?
    requires k < |t.feeds| && t.feeds[k].canvasId == env.fetched.value.id
    ensures AddSpec(t, serverId, channelId, url, env)
         == (Sync.Return(Ok(())), Db.WithSubscription(t, serverId, channelId, t.feeds[k].id))
  {
    LookupFindsTracked(t.feeds, k, env.fetched.value.id);
  }

  /**
   * A feed not tracked yet is inserted with checkpoint `UNIX_EPOCH`, and the
   * subscription points at the new row, provided the second fetch inside
   * `Feed::add` returns the same feed.
   */
  lemma NewFeedIsInsertedThenSubscribed(t: Db.Tables, serverId: string, channelId: string, url: string, env: SubscribeEnv)
    requires Db.UniqueCanvasIds(t.feeds)
    requires env.fetched.Ok? && env.pool.None? && env.lookup.None? && env.relookup.None? && env.insert.None?
    requires env.add == Sync.AddEnv(env.fetched, None, None, None, None)
    requires !Db.HasCanvasId(t.feeds, env.fetched.value.id)
    ensures var t1 := Db.WithFeed(t, env.fetched.value.id, url, UNIX_EPOCH);
      AddSpec(t, serverId, channelId, url, env)
      == (Sync.Return(Ok(())), Db.WithSubscription(t1, serverId, channelId, t.nextFeedId))
  {
    var t1 := Db.WithFeed(t, env.fetched.value.id, url, UNIX_EPOCH);
    assert Db.UniqueCanvasIds(t1.feeds);
    LookupFindsTracked(t1.feeds, |t.feeds|, env.fetched.value.id);
  }

  /**
   * When the second fetch inside `Feed::add` returns a different feed, the
   * row `Feed::add` inserted stays but the id query after it finds nothing:
   * the call fails with `NotFound` and no subscription is made.
   */
  lemma SecondFetchMismatchLeavesFeedRow(t: Db.Tables, serverId: string, channelId: string, url: string,
                                         env: SubscribeEnv, other: Feed)
    requires env.fetched.Ok? && env.pool.None? && env.lookup.None? && env.relookup.None?
    requires env.add == Sync.AddEnv(Ok(other), None, None, None, None)
    requires other.id != env.fetched.value.id
    requires !Db.HasCanvasId(t.feeds, env.fetched.value.id) && !Db.HasCanvasId(t.feeds, other.id)
    ensures AddSpec(t, serverId, channelId, url, env)
         == (Sync.Return(Err(From(Diesel(NotFound)))), Db.WithFeed(t, other.id, url, UNIX_EPOCH))
  {
    var t1 := Db.WithFeed(t, other.id, url, UNIX_EPOCH);
    assert !Db.HasCanvasId(t1.feeds, env.fetched.value.id);
  }

  /** A lookup failure other than `NotFound` changes nothing. */
  lemma LookupFailureChangesNothing(t: Db.Tables, serverId: string, channelId: string, url: string, env: SubscribeEnv)
    requires env.fetched.Ok? && env.pool.None? && env.lookup.Some?
    ensures AddSpec(t, serverId, channelId, url, env)
         == (Sync.Return(Err(From(Diesel(QueryFailed(env.lookup.value))))), t)
  {
  }

  /** `Subscription::add` against the store. */
  method Add(store: Db.Store, serverId: string, channelId: string, url: string, env: SubscribeEnv) returns (r: Sync.Outcome<()>)
    requires store.Valid()
    modifies store
    ensures store.Valid()
    ensures (r, store.State()) == AddSpec(old(store.State()), serverId, channelId, url, env)
  {
    var feed;
    match env.fetched {
      case Err(e) => return Sync.Return(Err(e));
      case Ok(f) => feed := f;
    }
    if env.pool.Some? {
      return Sync.Return(Err(From(Pool(env.pool.value))));
    }
    var feedId;
    match Db.FeedIdByCanvasId(store.feeds, feed.id, env.lookup) {
      case Ok(id) => feedId := id;
      case Err(NotFound) =>
        var added := Sync.AddFeed(store, url, env.add);
        match added {
          case Panic(site) => return Sync.Panic(site);
          case Return(Err(e)) => return Sync.Return(Err(e));
          case Return(Ok(_)) =>
        }
        match Db.FeedIdByCanvasId(store.feeds, feed.id, env.relookup) {
          case Err(e) => return Sync.Return(Err(From(Diesel(e))));
          case Ok(id) => feedId := id;
        }
      case Err(e) => return Sync.Return(Err(From(Diesel(e))));
    }
    var inserted := store.InsertSubscription(serverId, channelId, feedId, env.insert);
    if inserted.Err? {
      return Sync.Return(Err(From(Diesel(inserted.error))));
    }
    r := Sync.Return(Ok(()));
  }
}
