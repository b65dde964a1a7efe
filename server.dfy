/**
 * The gRPC service `CanvasRss`: how `list_feeds`, `new_announcements` and
 * `subscribe` turn the crate's results into replies. The reply stream of a
 * call is the sequence of `FeedReply` values it sends, in order.
 */
module Server {
  import opened Wrappers
  import opened AppError
  import opened Canvas

  /** The request's `after` field as the protobuf-to-`SystemTime` conversion sees it. */
  datatype WireTimestamp = Convertible(time: int) | Unconvertible

  datatype AnnouncementReply = AnnouncementReply(title: string, published: Option<int>, link: string, author: string, content: string)

  datatype Subscriber = Subscriber(serverId: string, channelId: string)

  datatype FeedReply = FeedReply(id: string, announcements: seq<AnnouncementReply>, subscribers: seq<Subscriber>)

  datatype Code = Internal | InvalidArgument

  datatype Status = Status(code: Code, message: string)

  const RETRIEVE_FAILED: string := "Failed to retreive feeds"

  // ---------------------------------------------------------------------
  // Shaping of announcements and subscribers

  /** `(check_date, after)`: a cutoff only when the field is present and converts. */
  function DecodeCutoff(after: Option<WireTimestamp>): (r: (bool, int))
    ensures r.0 <==> after.Some? && after.value.Convertible?
    ensures r.0 ==> r.1 == after.value.time
    ensures !r.0 ==> r.1 == UNIX_EPOCH
  {
    match after
    case Some(Convertible(time)) => (true, time)
    case Some(Unconvertible) => (false, UNIX_EPOCH)
    case None => (false, UNIX_EPOCH)
  }

  /** The reply for each announcement, in order. */
  function RepliesOf(s: seq<Announcement>): (r: seq<AnnouncementReply>)
    ensures |r| == |s|
    ensures forall i :: 0 <= i < |s| ==>
      && r[i].title == s[i].title && r[i].published == Some(s[i].published)
      && r[i].link == s[i].link.href && r[i].author == s[i].author.name && r[i].content == s[i].content.content
  {
    if s == [] then []
    else
      var a := s[|s| - 1];
      RepliesOf(s[..|s| - 1]) + [AnnouncementReply(a.title, Some(a.published), a.link.href, a.author.name, a.content.content)]
  }

  /** The inner loop of both streams: one `AnnouncementReply` pushed per announcement. */
  method Replies(s: seq<Announcement>) returns (r: seq<AnnouncementReply>)
    ensures r == RepliesOf(s)
  {
    r := [];
    for i := 0 to |s|
      invariant r == RepliesOf(s[..i])
    {
      var a := s[i];
      assert s[..i + 1][..i] == s[..i];
      r := r + [AnnouncementReply(a.title, Some(a.published), a.link.href, a.author.name, a.content.content)];
    }
    assert s[..|s|] == s;
  }

  /** The `Subscriber` for each `(server_id, channel_id)` pair, in order. */
  function SubscribersOf(s: seq<(string, string)>): (r: seq<Subscriber>)
    ensures |r| == |s|
    ensures forall i :: 0 <= i < |s| ==> r[i].serverId == s[i].0 && r[i].channelId == s[i].1
  {
    if s == [] then [] else SubscribersOf(s[..|s| - 1]) + [Subscriber(s[|s| - 1].0, s[|s| - 1].1)]
  }

  // ---------------------------------------------------------------------
  // list_feeds

  /** What `list_feeds` sends for one feed: nothing when filtering left it empty. */
  function ListedOne(feed: Feed, checkDate: bool, after: int): (r: seq<FeedReply>)
    ensures |r| <= 1
    ensures !checkDate ==> |r| == 1
    ensures r != [] ==> r[0].id == feed.id && r[0].subscribers == []
  {
    if !checkDate then [FeedReply(feed.id, RepliesOf(feed.announcements), [])]
    else
      var kept := FeedAfter(feed, after);
      if kept.announcements == [] then [] else [FeedReply(kept.id, RepliesOf(kept.announcements), [])]
  }

  /** The stream `list_feeds` sends for the feeds of `get_all`. */
  function Listed(feeds: seq<Feed>, checkDate: bool, after: int): (r: seq<FeedReply>)
    ensures |r| <= |feeds|
    ensures forall k :: 0 <= k < |r| ==> r[k].subscribers == []
  {
    if feeds == [] then []
    else Listed(feeds[..|feeds| - 1], checkDate, after) + ListedOne(feeds[|feeds| - 1], checkDate, after)
  }

  /**
   * `list_feeds`: `feeds` is the answer of `Feed::get_all`. A failure becomes
   * an `Internal` status with a fixed message; `Ok(None)` an empty stream.
   */
  method ListFeeds(after: Option<WireTimestamp>, feeds: Result<Option<seq<Feed>>, MyError>) returns (r: Result<seq<FeedReply>, Status>)
    ensures feeds.Err? ==> r == Err(Status(Internal, RETRIEVE_FAILED))
    ensures feeds == Ok(None) ==> r == Ok([])
    ensures feeds.Ok? && feeds.value.Some? ==>
      r == Ok(Listed(feeds.value.value, DecodeCutoff(after).0, DecodeCutoff(after).1))
  {
    var (checkDate, cutoff) := DecodeCutoff(after);
    match feeds {
      case Err(_) => return Err(Status(Internal, RETRIEVE_FAILED));
      case Ok(None) => return Ok([]);
      case Ok(Some(all)) =>
        var sent := SendListed(all, checkDate, cutoff);
        return Ok(sent);
    }
  }

  /** The spawned sender task of `list_feeds`: one reply per feed, skipping feeds the filter empties. */
  method SendListed(all: seq<Feed>, checkDate: bool, cutoff: int) returns (sent: seq<FeedReply>)
    ensures sent == Listed(all, checkDate, cutoff)
  {
    sent := [];
    for i := 0 to |all|
      invariant sent == Listed(all[..i], checkDate, cutoff)
    {
      var feed := all[i];
      ListedPrefix(all, i, checkDate, cutoff);
      if checkDate {
        var kept, _ := After(feed, cutoff);
        if kept.announcements == [] {
          continue;
        }
        feed := kept;
      }
      var announcements := Replies(feed.announcements);
      sent := sent + [FeedReply(feed.id, announcements, [])];
    }
    assert all[..|all|] == all;
  }

  /** One more feed of the input adds what is sent for it. */
  lemma ListedPrefix(feeds: seq<Feed>, i: nat, checkDate: bool, after: int)
    requires i < |feeds|
    ensures Listed(feeds[..i + 1], checkDate, after) == Listed(feeds[..i], checkDate, after) + ListedOne(feeds[i], checkDate, after)
  {
    assert feeds[..i + 1][..i] == feeds[..i];
  }

  /** The stream of a concatenation is the concatenation of the streams. */
  lemma {:induction false} ListedAppend(a: seq<Feed>, b: seq<Feed>, checkDate: bool, after: int)
    ensures Listed(a + b, checkDate, after) == Listed(a, checkDate, after) + Listed(b, checkDate, after)
    decreases |b|
  {
    if b == [] {
      assert a + b == a;
    } else {
      var b' := b[..|b| - 1];
      assert (a + b)[..|a + b| - 1] == a + b';
      ListedAppend(a, b', checkDate, after);
    }
  }

  /** Without a cutoff every feed is sent in full, in input order. */
  lemma {:induction false} UnfilteredListsEveryFeed(feeds: seq<Feed>, after: int)
    ensures |Listed(feeds, false, after)| == |feeds|
    ensures forall i :: 0 <= i < |feeds| ==>
      Listed(feeds, false, after)[i] == FeedReply(feeds[i].id, RepliesOf(feeds[i].announcements), [])
  {
    if feeds != [] {
      UnfilteredListsEveryFeed(feeds[..|feeds| - 1], after);
    }
  }

  /**
   * With a cutoff, a feed left empty by the filter is skipped, and any other
   * feed is sent once, filtered, between what its neighbours send.
   */
  lemma FilteredSkipsOnlyEmptyFeeds(a: seq<Feed>, feed: Feed, b: seq<Feed>, after: int)
    ensures var kept := FeedAfter(feed, after);
      Listed(a + [feed] + b, true, after)
      == Listed(a, true, after)
         + (if kept.announcements == [] then [] else [FeedReply(feed.id, RepliesOf(kept.announcements), [])])
         + Listed(b, true, after)
  {
    ListedAppend(a + [feed], b, true, after);
    ListedAppend(a, [feed], true, after);
    assert [feed][..0] == [];
  }

  /** With a cutoff, every announcement sent was published after it, and no reply is empty. */
  lemma {:induction false} FilteredSendsOnlyNewAnnouncements(feeds: seq<Feed>, after: int)
    ensures forall k :: 0 <= k < |Listed(feeds, true, after)| ==> Listed(feeds, true, after)[k].announcements != []
    ensures forall k, j :: 0 <= k < |Listed(feeds, true, after)| && 0 <= j < |Listed(feeds, true, after)[k].announcements| ==>
              (Listed(feeds, true, after)[k].announcements[j].published.Some?
               && Listed(feeds, true, after)[k].announcements[j].published.value > after)
  {
    if feeds != [] {
      FilteredSendsOnlyNewAnnouncements(feeds[..|feeds| - 1], after);
    }
  }

  // ---------------------------------------------------------------------
  // new_announcements

  /** The stream `new_announcements` sends for `(feed, subscribers)` pairs. */
  function Announced(pairs: seq<(Feed, seq<(string, string)>)>): (r: seq<FeedReply>)
    ensures |r| == |pairs|
  {
    if pairs == [] then []
    else
      var p := pairs[|pairs| - 1];
      Announced(pairs[..|pairs| - 1]) + [FeedReply(p.0.id, RepliesOf(p.0.announcements), SubscribersOf(p.1))]
  }

  /** Each pair gives one reply, in order, with its feed's id, announcements and subscribers. */
  lemma {:induction false} AnnouncedPointwise(pairs: seq<(Feed, seq<(string, string)>)>)
    ensures forall i :: 0 <= i < |pairs| ==>
      Announced(pairs)[i] == FeedReply(pairs[i].0.id, RepliesOf(pairs[i].0.announcements), SubscribersOf(pairs[i].1))
  {
    if pairs != [] {
      AnnouncedPointwise(pairs[..|pairs| - 1]);
    }
  }

  /**
   * `new_announcements`: `feeds` is the answer of `Feed::get_new` in the
   * shape this handler reads it, each feed paired with its subscribers.
   */
  method NewAnnouncements(feeds: Result<Option<seq<(Feed, seq<(string, string)>)>>, MyError>)
    returns (r: Result<seq<FeedReply>, Status>)
    ensures feeds.Err? ==> r == Err(Status(Internal, RETRIEVE_FAILED))
    ensures feeds == Ok(None) ==> r == Ok([])
    ensures feeds.Ok? && feeds.value.Some? ==> r == Ok(Announced(feeds.value.value))
  {
    var pairs;
    match feeds {
      case Err(_) => return Err(Status(Internal, RETRIEVE_FAILED));
      case Ok(None) => return Ok([]);
      case Ok(Some(v)) => pairs := v;
    }
    var sent: seq<FeedReply> := [];
    for i := 0 to |pairs|
      invariant sent == Announced(pairs[..i])
    {
      assert pairs[..i + 1][..i] == pairs[..i];
      var (feed, subscribers) := pairs[i];
      var announcements := Replies(feed.announcements);
      sent := sent + [FeedReply(feed.id, announcements, SubscribersOf(subscribers))];
    }
    assert pairs[..|pairs|] == pairs;
    r := Ok(sent);
  }

  // ---------------------------------------------------------------------
  // subscribe

  /**
   * The error kinds the `subscribe` handler distinguishes. The handler is
   * written against this shape; the crate's `MyError` carries only a message.
   */
  datatype SubscribeFailure = InvalidFeedUrl(detail: string) | Deserialization(detail: string) | UniqueViolation | Other(detail: string)

  datatype SubscribeResponse = SubscribeResponse(success: bool, message: string)

  const NO_SUBSCRIBER: string := "No subscriber provided"
  const PLACED_HEAD: string := "Placed a subscription for '"
  const INVALID_URL: string := "Looks like you passed an invalid feed url"
  const NOT_A_FEED: string := "Failed to read the url as a announcement feed"
  const ALREADY_SUBSCRIBED: string := "This channel is already subscribed to that feed"
  const GENERIC_FAILURE: string := "Oops something went wrong"

  /** The fixed message of each failure kind. */
  function FailureMessage(f: SubscribeFailure): (m: string)
    ensures m in {INVALID_URL, NOT_A_FEED, ALREADY_SUBSCRIBED, GENERIC_FAILURE}
    ensures m == GENERIC_FAILURE <==> f.Other?
    ensures f.InvalidFeedUrl? ==> m == INVALID_URL
    ensures f.Deserialization? ==> m == NOT_A_FEED
    ensures f.UniqueViolation? ==> m == ALREADY_SUBSCRIBED
  {
    match f
    case InvalidFeedUrl(_) => INVALID_URL
    case Deserialization(_) => NOT_A_FEED
    case UniqueViolation => ALREADY_SUBSCRIBED
    case Other(_) => GENERIC_FAILURE
  }

  /**
   * `subscribe`: `added` is the outcome of adding the subscription (the
   * feed's title, or the failure), consulted only when a subscriber is given.
   */
  function Subscribe(subscriber: Option<Subscriber>, added: Result<string, SubscribeFailure>): (r: Result<SubscribeResponse, Status>)
    ensures subscriber.None? <==> r.Err?
    ensures r.Err? ==> r.error == Status(InvalidArgument, NO_SUBSCRIBER)
    ensures r.Ok? ==> (r.value.success <==> added.Ok?)
    ensures r.Ok? && added.Ok? ==> r.value.message == PLACED_HEAD + added.value + "'"
    ensures r.Ok? && added.Err? ==> r.value.message == FailureMessage(added.error)
  {
    if subscriber.None? then Err(Status(InvalidArgument, NO_SUBSCRIBER))
    else
      match added
      case Ok(title) => Ok(SubscribeResponse(true, PLACED_HEAD + title + "'"))
      case Err(f) => Ok(SubscribeResponse(false, FailureMessage(f)))
  }

  /** The success message quotes the title right after the fixed head. */
  lemma SuccessMessageNamesTitle(subscriber: Subscriber, title: string)
    ensures var m := Subscribe(Some(subscriber), Ok(title)).value.message;
      |m| == |PLACED_HEAD| + |title| + 1 && m[|PLACED_HEAD|..|PLACED_HEAD| + |title|] == title
  {
    var m := Subscribe(Some(subscriber), Ok(title)).value.message;
    assert m == PLACED_HEAD + title + "'";
    assert m[|PLACED_HEAD|..|PLACED_HEAD| + |title|] == title;
  }

  /** A failure message never depends on the failure's details. */
  lemma FailureHidesDetails(subscriber: Subscriber, f: SubscribeFailure, g: SubscribeFailure)
    requires f.InvalidFeedUrl? == g.InvalidFeedUrl? && f.Deserialization? == g.Deserialization? && f.Other? == g.Other?
    ensures Subscribe(Some(subscriber), Err(f)) == Subscribe(Some(subscriber), Err(g))
  {
  }
}
