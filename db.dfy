/**
 * The `feeds` and `subscriptions` tables, the read-only queries run against
 * them, and a `Store` object whose methods are the insert and update
 * statements. A database failure (pool checkout or query) is an explicit
 * input: `fault == Some(text)` means the statement fails with that text and
 * changes nothing.
 */
module Db {
  import opened Wrappers
  import opened Foreign
  import AppError

  /** A row of `feeds` (`DbFeed`); `lastUpdate` is the feed's checkpoint. */
  datatype FeedRow = FeedRow(id: int, canvasId: string, url: string, lastUpdate: int)

  /** A row of `subscriptions`. */
  datatype SubscriptionRow = SubscriptionRow(id: int, serverId: string, channelId: string, feedId: int)

  /** The two tables with the next value of each serial primary key. */
  datatype Tables = Tables(
    feeds: seq<FeedRow>,
    subscriptions: seq<SubscriptionRow>,
    nextFeedId: int,
    nextSubscriptionId: int)

  /** Primary keys are distinct and below the next serial value. */
  ghost predicate KeysValid(t: Tables)
  {
    && (forall i :: 0 <= i < |t.feeds| ==> t.feeds[i].id < t.nextFeedId)
    && (forall i, j :: 0 <= i < j < |t.feeds| ==> t.feeds[i].id != t.feeds[j].id)
    && (forall i :: 0 <= i < |t.subscriptions| ==> t.subscriptions[i].id < t.nextSubscriptionId)
    && (forall i, j :: 0 <= i < j < |t.subscriptions| ==> t.subscriptions[i].id != t.subscriptions[j].id)
  }

  /** A canonical (canvas) id names at most one tracked feed. */
  ghost predicate UniqueCanvasIds(rows: seq<FeedRow>)
  {
    forall i, j :: 0 <= i < j < |rows| ==> rows[i].canvasId != rows[j].canvasId
  }

  /** Every subscription names a tracked feed row. */
  ghost predicate SubscriptionsResolve(t: Tables)
  {
    forall i :: 0 <= i < |t.subscriptions| ==> exists j :: 0 <= j < |t.feeds| && t.feeds[j].id == t.subscriptions[i].feedId
  }

  predicate HasCanvasId(rows: seq<FeedRow>, canvasId: string)
  {
    exists i :: 0 <= i < |rows| && rows[i].canvasId == canvasId
  }

  predicate HasUrl(rows: seq<FeedRow>, url: string)
  {
    exists i :: 0 <= i < |rows| && rows[i].url == url
  }

  /** Position of the first row with the given canvas id. */
  function IndexOfCanvasId(rows: seq<FeedRow>, canvasId: string): (k: Option<nat>)
    ensures k.None? <==> !HasCanvasId(rows, canvasId)
    ensures k.Some? ==> k.value < |rows| && rows[k.value].canvasId == canvasId
    ensures k.Some? ==> forall i :: 0 <= i < k.value ==> rows[i].canvasId != canvasId
  {
    if rows == [] then None
    else if rows[0].canvasId == canvasId then Some(0)
    else
      match IndexOfCanvasId(rows[1..], canvasId)
      case None =>
        assert forall i :: 1 <= i < |rows| ==> rows[i] == rows[1..][i - 1];
        None
      case Some(k) => Some(k + 1)
  }

  /**
   * `DbFeed::get_by_canvas_id`: the row whose canvas id is the argument, or
   * `NotFound`. With unique canvas ids the row is the only match.
   */
  function GetByCanvasId(rows: seq<FeedRow>, canvasId: string, fault: Option<string>): (r: Result<FeedRow, DieselError>)
    ensures fault.Some? ==> r == Err(QueryFailed(fault.value))
    ensures fault.None? ==> (r == Err(NotFound) <==> !HasCanvasId(rows, canvasId))
    ensures fault.None? && HasCanvasId(rows, canvasId) ==> r.Ok?
    ensures r.Ok? ==> r.value in rows && r.value.canvasId == canvasId
    ensures r.Ok? && UniqueCanvasIds(rows) ==> forall row :: row in rows && row.canvasId == canvasId ==> row == r.value
  {
    if fault.Some? then Err(QueryFailed(fault.value))
    else
      match IndexOfCanvasId(rows, canvasId)
      case None => Err(NotFound)
      case Some(k) => Ok(rows[k])
  }

  /** `feeds.filter(canvas_id.eq(..)).select(id).get_result(..)` */
  function FeedIdByCanvasId(rows: seq<FeedRow>, canvasId: string, fault: Option<string>): (r: Result<int, DieselError>)
    ensures fault.Some? ==> r == Err(QueryFailed(fault.value))
    ensures fault.None? ==> (r == Err(NotFound) <==> !HasCanvasId(rows, canvasId))
    ensures fault.None? && HasCanvasId(rows, canvasId) ==> r.Ok?
    ensures r.Ok? ==> exists i :: 0 <= i < |rows| && rows[i].canvasId == canvasId && rows[i].id == r.value
  {
    match GetByCanvasId(rows, canvasId, fault)
    case Ok(row) => Ok(row.id)
    case Err(e) => Err(e)
  }

  /** `DbFeed::get_all`: every feed row, or the pool/query failure. */
  function GetAll(rows: seq<FeedRow>, fault: Option<string>): (r: Result<seq<FeedRow>, AppError.MyError>)
    ensures r.Ok? <==> fault.None?
    ensures r.Ok? ==> r.value == rows
    ensures r.Err? ==> AppError.Display(r.error) == fault.value
  {
    if fault.Some? then Err(AppError.New(fault.value)) else Ok(rows)
  }

  /** `select(exists(feeds.filter(canvas_id.eq(..))))` */
  function CanvasIdExists(rows: seq<FeedRow>, canvasId: string, fault: Option<string>): (r: Result<bool, DieselError>)
    ensures r.Ok? <==> fault.None?
    ensures r.Ok? ==> (r.value <==> exists row :: row in rows && row.canvasId == canvasId)
  {
    if fault.Some? then Err(QueryFailed(fault.value)) else Ok(HasCanvasId(rows, canvasId))
  }

  /** `select(exists(feeds.filter(url.eq(..))))` */
  function UrlExists(rows: seq<FeedRow>, url: string, fault: Option<string>): (r: Result<bool, DieselError>)
    ensures r.Ok? <==> fault.None?
    ensures r.Ok? ==> (r.value <==> exists row :: row in rows && row.url == url)
  {
    if fault.Some? then Err(QueryFailed(fault.value)) else Ok(HasUrl(rows, url))
  }

  /** `INSERT INTO feeds`: a new row with the next serial id at the end. */
  function WithFeed(t: Tables, canvasId: string, url: string, lastUpdate: int): (t': Tables)
    ensures t'.feeds == t.feeds + [FeedRow(t.nextFeedId, canvasId, url, lastUpdate)]
    ensures t'.subscriptions == t.subscriptions && t'.nextSubscriptionId == t.nextSubscriptionId
    ensures KeysValid(t) ==> KeysValid(t')
  {
    t.(feeds := t.feeds + [FeedRow(t.nextFeedId, canvasId, url, lastUpdate)],
       nextFeedId := t.nextFeedId + 1)
  }

  /** `INSERT INTO subscriptions`: a new row with the next serial id at the end. */
  function WithSubscription(t: Tables, serverId: string, channelId: string, feedId: int): (t': Tables)
    ensures t'.subscriptions == t.subscriptions + [SubscriptionRow(t.nextSubscriptionId, serverId, channelId, feedId)]
    ensures t'.feeds == t.feeds && t'.nextFeedId == t.nextFeedId
    ensures KeysValid(t) ==> KeysValid(t')
  {
    t.(subscriptions := t.subscriptions + [SubscriptionRow(t.nextSubscriptionId, serverId, channelId, feedId)],
       nextSubscriptionId := t.nextSubscriptionId + 1)
  }

  /** `UPDATE feeds SET last_update = m WHERE canvas_id = ..`: every matching row. */
  function SetLastUpdateWhereCanvasId(rows: seq<FeedRow>, canvasId: string, m: int): (rows': seq<FeedRow>)
    ensures |rows'| == |rows|
    ensures forall i :: 0 <= i < |rows| ==>
      rows'[i] == if rows[i].canvasId == canvasId then rows[i].(lastUpdate := m) else rows[i]
  {
    seq(|rows|, i requires 0 <= i < |rows| =>
      if rows[i].canvasId == canvasId then rows[i].(lastUpdate := m) else rows[i])
  }

  /** `UPDATE feeds SET last_update = m WHERE id = ..`: the row with that key. */
  function SetLastUpdateWhereId(rows: seq<FeedRow>, id: int, m: int): (rows': seq<FeedRow>)
    ensures |rows'| == |rows|
    ensures forall i :: 0 <= i < |rows| ==>
      rows'[i] == if rows[i].id == id then rows[i].(lastUpdate := m) else rows[i]
  {
    seq(|rows|, i requires 0 <= i < |rows| =>
      if rows[i].id == id then rows[i].(lastUpdate := m) else rows[i])
  }

  /** The database the crate talks to through its connection pool. */
  class Store {
    var feeds: seq<FeedRow>
    var subscriptions: seq<SubscriptionRow>
    var nextFeedId: int
    var nextSubscriptionId: int

    /** The tables as a value. */
    function State(): Tables
      reads this
    {
      Tables(feeds, subscriptions, nextFeedId, nextSubscriptionId)
    }

    ghost predicate Valid()
      reads this
    {
      KeysValid(State())
    }

    constructor ()
      ensures Valid()
      ensures feeds == [] && subscriptions == []
    {
      feeds, subscriptions := [], [];
      nextFeedId, nextSubscriptionId := 1, 1;
    }

    /** `diesel::insert_into(feeds)` */
    method InsertFeed(canvasId: string, url: string, lastUpdate: int, fault: Option<string>) returns (r: Result<(), DieselError>)
      requires Valid()
      modifies this
      ensures Valid()
      ensures r.Ok? <==> fault.None?
      ensures r.Err? ==> r.error == QueryFailed(fault.value)
      ensures State() == if fault.None? then WithFeed(old(State()), canvasId, url, lastUpdate) else old(State())
    {
      if fault.Some? {
        return Err(QueryFailed(fault.value));
      }
      var t := WithFeed(State(), canvasId, url, lastUpdate);
      feeds, nextFeedId := t.feeds, t.nextFeedId;
      r := Ok(());
    }

    /** `diesel::insert_into(subscriptions)` */
    method InsertSubscription(serverId: string, channelId: string, feedId: int, fault: Option<string>) returns (r: Result<(), DieselError>)
      requires Valid()
      modifies this
      ensures Valid()
      ensures r.Ok? <==> fault.None?
      ensures r.Err? ==> r.error == QueryFailed(fault.value)
      ensures State() == if fault.None? then WithSubscription(old(State()), serverId, channelId, feedId) else old(State())
    {
      if fault.Some? {
        return Err(QueryFailed(fault.value));
      }
      var t := WithSubscription(State(), serverId, channelId, feedId);
      subscriptions, nextSubscriptionId := t.subscriptions, t.nextSubscriptionId;
      r := Ok(());
    }

    /** `diesel::update(feeds.filter(canvas_id.eq(..))).set(last_update.eq(m))` */
    method SetLastUpdate(canvasId: string, m: int, fault: Option<string>) returns (r: Result<(), DieselError>)
      requires Valid()
      modifies this
      ensures Valid()
      ensures r.Ok? <==> fault.None?
      ensures r.Err? ==> r.error == QueryFailed(fault.value)
      ensures State() == if fault.None?
        then old(State()).(feeds := SetLastUpdateWhereCanvasId(old(feeds), canvasId, m))
        else old(State())
    {
      if fault.Some? {
        return Err(QueryFailed(fault.value));
      }
      feeds := SetLastUpdateWhereCanvasId(feeds, canvasId, m);
      r := Ok(());
    }
  }
}
