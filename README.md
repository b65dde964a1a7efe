# discord-announcements: feed synchronisation, in Dafny

This project models the core of `discord-announcements`. That crate polls
the Atom announcement feeds of Canvas courses and tells a Discord bot, over
gRPC, which announcements are new and which channels subscribe to them.
The model covers:

- the `Feed`/`Announcement` records and `Feed::after`, the filter that keeps
  the announcements published after a cutoff and reports the latest one
  (module `Canvas`);
- `Feed::get_all`, `Feed::get_new` and `Feed::add` (module `Sync`):
  - the fetch of each tracked feed is an input sequence of results, in row
    order;
  - the `feeds` and `subscriptions` tables are a `Db.Store` object whose
    insert and update methods change them;
- `DbFeed::get_by_canvas_id`, `DbFeed::get_all`, the feed and subscription
  rows and the statements run against them (module `Db`);
- `Subscription::add`, the find-or-create-then-subscribe workflow (module
  `Subscriptions`);
- the gRPC handlers `list_feeds`, `new_announcements` and `subscribe`: cutoff
  decoding, reply shaping and the mapping of errors to responses (module
  `Server`);
- the error types `MyError`, `FeedError` and `DbError`: constructors,
  conversions, `Display` and `description` (modules `AppError`,
  `FeedErrors` and `DbErrors`). The foreign errors they convert from are in
  module `Foreign`.

Timestamps are integers and `UNIX_EPOCH` is 0. Each database statement takes
a `fault: Option<string>` input: `Some(text)` means that the pool checkout
or the query fails with that text, and the statement changes nothing. A
`todo!()` branch ends in the outcome `Panic(site)`.

Properties proved:

- `after(t)` keeps exactly the announcements published after `t`, in order.
  Filtering again at `t`, or at any later cutoff, changes nothing more.
  When `after(t)` returns `Some(m)`, then `m > t` and a later `after(m)`
  keeps nothing.
- `get_new` returns one filtered feed per row, in row order. The first
  failure aborts the whole batch, whether a fetch or a checkpoint update
  failed, and the checkpoints written for the rows before it stay written.
- In `get_new` as written, no checkpoint moves backward when canvas ids are
  unique and every row's url still serves the feed the row was created for.
  Under the same two conditions, a fully successful sync sets each row's
  checkpoint to the latest publish time it kept, and syncing again against
  unchanged feeds finds nothing and writes nothing. With the update keyed on
  the row's primary key instead, all three hold without those conditions.
  The last two assume that publish times are whole microseconds. The
  `last_update` column keeps microseconds, and a checkpoint with a
  sub-microsecond part is stored rounded down, so the latest announcement is
  kept again on every later sync (`Canvas.TruncatedCheckpointRedelivers`).
- `Subscription::add` reuses a tracked feed row or inserts one, and points
  the new subscription at a row that tracks the fetched feed. On success it
  adds exactly one subscription. It keeps primary keys unique, canvas ids
  unique, and every subscription pointing at an existing feed row.
- `list_feeds` and `new_announcements` send one reply per feed, in order.
  With a cutoff, `list_feeds` skips feeds that the filter leaves empty.
  `subscribe` reports success exactly when the add succeeded, and its
  failure messages come from a fixed set that hides the error's details.

## Model

| member | source | states |
|---|---|---|
| `AppError.New` | discord-announcements/src/error.rs:10-14 | `MyError::new(msg)` holds `Some(msg)`, and both `Display` and `description` give back `msg` |
| `AppError.Empty` | discord-announcements/src/error.rs:16-18 | `MyError::empty()` holds no details, and both texts are the fallback "Error" |
| `AppError.Description` | discord-announcements/src/error.rs:30-37 | the details string, or "Error" when there are none |
| `AppError.Display` | discord-announcements/src/error.rs:21-28 | writes exactly what `description` returns, so it writes the details when present |
| `AppError.From` | discord-announcements/src/error.rs:39-54 | every generated conversion is `new` applied to the foreign error's text, so the details are always `Some` |
| `AppError.EmptyShowsLikeNewFallback` | discord-announcements/src/error.rs:16-28 | an empty error and `new("Error")` are different values that display the same |
| `AppError.ConversionsCarryText` | discord-announcements/src/error.rs:39-54 | a converted error is never the empty error and displays the foreign text |
| `FeedErrors.New` | discord-announcements/src/error/feed.rs:24-26 | `FeedError::new(msg)` is `Generic` with description `msg`, displayed as "Feed error: " + `msg` |
| `FeedErrors.Description` | discord-announcements/src/error/feed.rs:40-48 | the carried string, and "" for `Empty` |
| `FeedErrors.Display` | discord-announcements/src/error/feed.rs:29-37 | the variant's fixed prefix followed by the description; the payload is the text after the prefix |
| `FeedErrors.FromXmlError` | discord-announcements/src/error/feed.rs:51-69 | every `quick_xml::Error` becomes `new(e)` |
| `FeedErrors.FromDeError` | discord-announcements/src/error/feed.rs:72-90 | every `quick_xml::DeError` becomes `De` carrying the error's text |
| `FeedErrors.DisplayInjective` | discord-announcements/src/error/feed.rs:29-37 | two feed errors that display the same are equal |
| `DbErrors.New` | discord-announcements/src/error/db.rs:21-23 | `DbError::new(msg)` is `Generic` with description `msg` |
| `DbErrors.NewEmpty` | discord-announcements/src/error/db.rs:25-27 | `DbError::empty(msg)` equals `new(msg)` and is never `Empty` |
| `DbErrors.Description` | discord-announcements/src/error/db.rs:40-48 | "not found" for `NotFound`, the string for `Generic`, "" for `Empty` |
| `DbErrors.Display` | discord-announcements/src/error/db.rs:30-37 | "DB error", then ": " and the description for every variant except `Empty` |
| `DbErrors.FromDiesel` | discord-announcements/src/error/db.rs:50-64 | diesel `NotFound` maps to `NotFound` and to nothing else; any other error becomes `new` of its text |
| `DbErrors.DisplayConflatesNotFound` | discord-announcements/src/error/db.rs:30-48 | `NotFound` and `Generic("not found")` differ but display the same |
| `DbErrors.DisplayInjectiveOtherwise` | discord-announcements/src/error/db.rs:30-37 | apart from that one collision, the display text determines the error |
| `Canvas.PublishedAfter` | discord-announcements/src/models/canvas.rs:123-125 | what the `retain` keeps: never longer than the input, and every element after the cutoff |
| `Canvas.PublishedAfterMembers` | discord-announcements/src/models/canvas.rs:124-125 | an announcement survives if and only if it was in the input and is after the cutoff |
| `Canvas.Latest` | discord-announcements/src/models/canvas.rs:127-130 | `None` exactly for an empty list; otherwise the publish time of some element that is at least every element's publish time |
| `Canvas.FeedAfter` | discord-announcements/src/models/canvas.rs:123-125 | the feed with its announcements filtered and every other field unchanged |
| `Canvas.Retain` | discord-announcements/src/models/canvas.rs:124-125 | the retain loop computes `PublishedAfter` |
| `Canvas.MaxPublished` | discord-announcements/src/models/canvas.rs:127-130 | the maximum scan computes `Latest` |
| `Canvas.After` | discord-announcements/src/models/canvas.rs:119-131 | `Feed::after` leaves the filtered feed and returns the latest publish time it kept |
| `Canvas.PublishedAfterAppend` | discord-announcements/src/models/canvas.rs:124-125 | filtering a concatenation is concatenating the filtered parts, so survivors keep their relative order |
| `Canvas.PublishedAfterSingle` | discord-announcements/src/models/canvas.rs:124-125 | one announcement survives exactly when it is after the cutoff |
| `Canvas.PublishedAfterIdempotent` | discord-announcements/src/models/canvas.rs:123-125 | filtering twice at the same cutoff is filtering once |
| `Canvas.AllAfterIsKept` | discord-announcements/src/models/canvas.rs:124-125 | a list already after the cutoff is left unchanged |
| `Canvas.PublishedAfterComposes` | discord-announcements/src/models/canvas.rs:124-125 | filtering at `t` and then at a later `u` is filtering at `u` |
| `Canvas.NothingAfterBound` | discord-announcements/src/models/canvas.rs:124-130 | nothing survives a cutoff that bounds every publish time |
| `Canvas.AfterThenAfterLatest` | discord-announcements/src/models/canvas.rs:119-131 | if `after(t)` returns `Some(m)`, then `m > t` and a following `after(m)` leaves the list empty |
| `Canvas.AfterNoneIffEmpty` | discord-announcements/src/models/canvas.rs:119-131 | `after(t)` returns `None` exactly when every announcement was published at or before `t` |
| `Canvas.TruncatedCheckpointRedelivers` | discord-announcements/src/models/canvas.rs:234-237 | when the latest kept time has a sub-microsecond part, filtering at that time rounded down to the microsecond, which is what the `Timestamp` column stores, keeps an announcement again |
| `Db.IndexOfCanvasId` | discord-announcements/src/models/db.rs:65-67 | position of the first row with the canvas id, or none exactly when no row has it |
| `Db.GetByCanvasId` | discord-announcements/src/models/db.rs:59-68 | a failure is passed through; without one, `NotFound` exactly when no row has the canvas id and `Ok` exactly when one has; the row returned is a row of the table with that id, and the only one when canvas ids are unique |
| `Db.FeedIdByCanvasId` | discord-announcements/src/models/db.rs:89-92 | without a failure, `Ok` with the primary key of a row with the canvas id when one exists, and `NotFound` exactly when none does; a failure is passed through |
| `Db.GetAll` | discord-announcements/src/models/db.rs:70-74 | all feed rows, or the failure converted into `MyError` |
| `Db.CanvasIdExists` | discord-announcements/src/models/canvas.rs:147-150 | the existence query answers whether some row has the canvas id |
| `Db.UrlExists` | discord-announcements/src/models/canvas.rs:153-156 | the existence query answers whether some row has the url |
| `Db.WithFeed` | discord-announcements/src/models/canvas.rs:166-177 | the insert appends one row with the next serial id, leaves the subscriptions alone and keeps primary keys valid |
| `Db.WithSubscription` | discord-announcements/src/models/db.rs:107-115 | the insert appends one subscription with the next serial id, leaves the feeds alone and keeps primary keys valid |
| `Db.SetLastUpdateWhereCanvasId` | discord-announcements/src/models/canvas.rs:235-237 | the update sets the checkpoint of every row with that canvas id and changes nothing else |
| `Db.SetLastUpdateWhereId` | discord-announcements/src/models/canvas.rs:235-237 | the same update filtered on the primary key instead (the corrected statement) |
| `Db.Store.InsertFeed` | discord-announcements/src/models/canvas.rs:175-177 | the insert into `feeds`: it succeeds exactly without a fault; then the tables are `WithFeed` of the old ones, otherwise unchanged |
| `Db.Store.InsertSubscription` | discord-announcements/src/models/db.rs:113-115 | the insert into `subscriptions`, in the same terms |
| `Db.Store.SetLastUpdate` | discord-announcements/src/models/canvas.rs:235-237 | the checkpoint update, in the same terms |
| `Sync.Collect` | discord-announcements/src/models/canvas.rs:203-206 | awaiting the fetches with `?`: `Ok` exactly when every fetch succeeded, with the feeds in row order; otherwise the first failure |
| `Sync.GetAll` | discord-announcements/src/models/canvas.rs:188-209 | the lookup failure and `Ok(None)` are passed through; otherwise the result is `Collect` of the fetches, so the feeds come back in row order or the first failure is returned |
| `Sync.WriteCheckpoint` | discord-announcements/src/models/canvas.rs:234-238 | the checkpoint update hits exactly the rows its key targets |
| `Sync.Step` | discord-announcements/src/models/canvas.rs:230-241 | one iteration: a fetch failure ends the loop with that error; otherwise the filtered feed, with the table unchanged when nothing was kept, and otherwise the table after writing the latest kept publish time to the rows the key targets; when something was kept and the update fails, the iteration ends with the converted database error, and that is the only other error |
| `Sync.SyncRows` | discord-announcements/src/models/canvas.rs:229-243 | the loop over the rows keeps the table's length |
| `Sync.GetNewSpec` | discord-announcements/src/models/canvas.rs:212-244 | lookup failure, `Ok(None)` and pool failure return before any row is touched |
| `Sync.GetNew` | discord-announcements/src/models/canvas.rs:212-244 | `get_new` against the store returns and leaves exactly what `GetNewSpec` says, and touches neither subscriptions nor serial counters |
| `Sync.SyncRow` | discord-announcements/src/models/canvas.rs:231-240 | the loop body does what `Step` says, and a failed iteration leaves the feeds as they were |
| `Sync.SyncKeepsRowOrder` | discord-announcements/src/models/canvas.rs:229-243 | a successful loop returns one feed per row, row `k`'s fetch filtered at row `k`'s checkpoint |
| `Sync.FetchFailureAbortsSync` | discord-announcements/src/models/canvas.rs:231 | any failed fetch makes the whole call fail |
| `Sync.EarlierCheckpointsSurviveAbort` | discord-announcements/src/models/canvas.rs:229-243 | when fetch `k` is the first failure, the call fails with that error and the table holds the updates of rows `0..k` |
| `Sync.UpdateFailureAbortsSync` | discord-announcements/src/models/canvas.rs:229-243 | when row `k`'s checkpoint update is the first failure, the call fails with the converted database error and the table holds the updates of rows `0..k` |
| `Sync.StepAdvances` | discord-announcements/src/models/canvas.rs:233-238 | one row's update moves only the rows it targets, and none backward when they are not ahead of the row's snapshot |
| `Sync.CheckpointsNeverRegress` | discord-announcements/src/models/canvas.rs:229-243 | whatever the fetches and faults, no checkpoint moves backward, provided that no table row a snapshot row's update targets is newer than that snapshot row's `last_update`, and no table row is targeted by two snapshot rows |
| `Sync.RowKeyedSyncNeverRegresses` | discord-announcements/src/models/canvas.rs:229-243 | with the update keyed on the row's primary key, no checkpoint ever moves backward |
| `Sync.ValidStoreRowKeyedSyncNeverRegresses` | discord-announcements/src/models/canvas.rs:229-243 | on any tables whose primary keys are valid, the store's invariant, feed row ids are distinct, so the row-keyed sync never moves a checkpoint backward |
| `Sync.CanvasKeyedSyncNeverRegressesWhenIdsMatch` | discord-announcements/src/models/canvas.rs:229-243 | as written, no checkpoint moves backward when canvas ids are unique and every url serves its own row's feed |
| `Sync.CanvasKeyedSyncCanRegress` | discord-announcements/src/models/canvas.rs:234-237 | as written, a row whose url serves another tracked feed moves that feed's checkpoint from 100 back to 50 |
| `Sync.Advanced` | discord-announcements/src/models/canvas.rs:233-238 | a row's own update changes only its checkpoint, never backward, changes it exactly when `after` kept something, and then sets it to the latest publish time kept |
| `Sync.AdvancedRows` | discord-announcements/src/models/canvas.rs:229-243 | every row advanced against its own fetch, same length |
| `Sync.AdvancedRowsPointwise` | discord-announcements/src/models/canvas.rs:229-243 | row `k` of the result is row `k` advanced |
| `Sync.SyncSetsOwnCheckpoints` | discord-announcements/src/models/canvas.rs:229-243 | when each row writes exactly its own table row and all succeed, the table ends as `AdvancedRows` of the rows |
| `Sync.RowKeyedSyncSetsCheckpoints` | discord-announcements/src/models/canvas.rs:230-238 | row-keyed, a fully successful sync sets each row's checkpoint to exactly the `m` that `after` returned, and leaves it otherwise |
| `Sync.CanvasKeyedSyncSetsCheckpointsWhenIdsMatch` | discord-announcements/src/models/canvas.rs:230-238 | the same, as written, when every url serves its own row's feed |
| `Sync.AdvancedIdempotent` | discord-announcements/src/models/canvas.rs:119-131 | advancing a row twice against the same feed is advancing it once, and nothing is left after its new checkpoint |
| `Sync.AdvancedRowsIdempotent` | discord-announcements/src/models/canvas.rs:233-238 | advancing every row twice is advancing once |
| `Sync.RowKeyedResyncFindsNothing` | discord-announcements/src/models/canvas.rs:229-243 | row-keyed, a second sync against unchanged feeds returns only empty feeds and writes no checkpoint, given that the checkpoints are stored exactly, i.e. publish times are whole microseconds |
| `Sync.CanvasKeyedResyncFindsNothing` | discord-announcements/src/models/canvas.rs:229-243 | as written, the same holds when canvas ids are unique and every row's url serves its own feed, with the same whole-microsecond assumption |
| `Sync.AddFeedSpec` | discord-announcements/src/models/canvas.rs:134-185 | a failed fetch gives the fixed error before any store access; `Ok` exactly when the fetch, pool, query and insert succeed for an untracked canvas id, and then one row with checkpoint `UNIX_EPOCH` is added; otherwise nothing changes; keys and canvas ids stay unique |
| `Sync.AddKnownFeedFails` | discord-announcements/src/models/canvas.rs:147-184 | a tracked canvas id under a known url inserts nothing and returns the fixed error |
| `Sync.AddFeed` | discord-announcements/src/models/canvas.rs:134-185 | `Feed::add` against the store returns and leaves exactly what `AddFeedSpec` says |
| `Subscriptions.Insert` | discord-announcements/src/models/db.rs:107-115 | the subscription insert either adds the row or fails with the converted error and changes nothing |
| `Subscriptions.AddSpec` | discord-announcements/src/models/db.rs:78-118 | a failed fetch returns before any store access; a failure adds no subscription; at most one feed row is added; success adds exactly one subscription, which names a row tracking the fetched feed; keys and canvas ids stay unique |
| `Subscriptions.AddKeepsSubscriptionsResolved` | discord-announcements/src/models/db.rs:89-115 | every subscription keeps naming an existing feed row |
| `Subscriptions.LookupFindsTracked` | discord-announcements/src/models/db.rs:89-92 | with unique canvas ids the id query returns the key of the row with that canvas id |
| `Subscriptions.TrackedFeedIsReused` | discord-announcements/src/models/db.rs:89-94 | a tracked feed's row id is reused and no feed row is inserted |
| `Subscriptions.NewFeedIsInsertedThenSubscribed` | discord-announcements/src/models/db.rs:95-102 | on `NotFound` the feed is inserted and the subscription names the new row's id |
| `Subscriptions.SecondFetchMismatchLeavesFeedRow` | discord-announcements/src/models/db.rs:95-102 | when `Feed::add`'s own fetch returns another feed, its row stays but the second lookup fails with `NotFound` and no subscription is made |
| `Subscriptions.LookupFailureChangesNothing` | discord-announcements/src/models/db.rs:103-105 | any other lookup error is returned converted and nothing is inserted |
| `Subscriptions.Add` | discord-announcements/src/models/db.rs:78-118 | `Subscription::add` against the store returns and leaves exactly what `AddSpec` says |
| `Server.DecodeCutoff` | server/src/main.rs:34-40 | a cutoff exactly when the field is present and converts; otherwise no filtering, with `UNIX_EPOCH` |
| `Server.RepliesOf` | server/src/main.rs:65-75 | one reply per announcement, in order, copying title, publish time, `link.href`, `author.name` and `content.content` |
| `Server.Replies` | server/src/main.rs:65-75 | the push loop computes `RepliesOf` |
| `Server.SubscribersOf` | server/src/main.rs:121-127 | one `Subscriber` per pair, in order, with `server_id = s.0` and `channel_id = s.1` |
| `Server.ListedOne` | server/src/main.rs:57-83 | at most one reply per feed, exactly one without a cutoff, carrying the feed's id and no subscribers |
| `Server.Listed` | server/src/main.rs:55-84 | never more replies than feeds, and every reply has an empty subscriber list |
| `Server.ListFeeds` | server/src/main.rs:30-89 | a failed `get_all` gives `Internal` "Failed to retreive feeds"; `Ok(None)` an empty stream; otherwise the stream `Listed` for the decoded cutoff |
| `Server.SendListed` | server/src/main.rs:53-85 | the sender task's loop, with its `continue`, sends exactly `Listed` |
| `Server.ListedAppend` | server/src/main.rs:55-84 | the stream of a concatenation is the concatenation of the streams, so feeds are sent in input order |
| `Server.UnfilteredListsEveryFeed` | server/src/main.rs:55-83 | without a cutoff every feed is sent once, in full, in order |
| `Server.FilteredSkipsOnlyEmptyFeeds` | server/src/main.rs:58-63 | with a cutoff a feed left empty is skipped and any other is sent once, filtered, in its place |
| `Server.FilteredSendsOnlyNewAnnouncements` | server/src/main.rs:58-63 | with a cutoff no reply is empty and every announcement sent was published after the cutoff |
| `Server.Announced` | server/src/main.rs:108-136 | one reply per feed |
| `Server.AnnouncedPointwise` | server/src/main.rs:108-136 | reply `i` carries feed `i`'s id, its announcements and its subscribers |
| `Server.NewAnnouncements` | server/src/main.rs:91-141 | a failed `get_new` gives `Internal` "Failed to retreive feeds"; `Ok(None)` an empty stream; otherwise the stream `Announced` |
| `Server.FailureMessage` | server/src/main.rs:183-198 | an invalid url, an unreadable feed and a duplicate subscription each get their own fixed message, and the generic message goes exactly to the other kinds |
| `Server.Subscribe` | server/src/main.rs:158-202 | no subscriber gives `InvalidArgument` "No subscriber provided"; otherwise success exactly when the add succeeded, with the title quoted after "Placed a subscription for '", or the failure's fixed message |
| `Server.SuccessMessageNamesTitle` | server/src/main.rs:179-182 | the success message contains the title right after the fixed head |
| `Server.FailureHidesDetails` | server/src/main.rs:183-198 | failures of the same kind give the same response whatever their details |

## Left out

- Fetching and parsing: `Feed::from_url` (reqwest and quick_xml) and the RFC 3339 timestamp decoding, including the `unwrap` in `rfc3339_time`, are library code. Every fetch is an input `Result<Feed, MyError>`.
- The `dbg!` around the fetch in `Subscription::add` only prints a trace to standard error, so it is left out.
- The `tokio::spawn` fan-out is left out. The tasks are awaited in row order, so their results are an already resolved sequence. A panicked task's `JoinError` is one of the failed results.
- The diesel/r2d2 pool, the query DSL and the table macros are replaced by the `Db.Store` object. Each statement's failure is an input. `Db.Store` keeps rows in insertion order; the order `load` returns them in is taken to be that order.
- `Canvas.After`: the Rust method updates `self.announcements` in place. Here the updated feed is returned as a new value, which is the same because the caller owns the feed.
- The three `todo!()` branches of `Feed::add` are modelled as the outcome `Panic(site)`. The unwritten "backup feed" behaviour is not invented.
- The protobuf timestamp conversions are left out. `WireTimestamp` says only whether the request's `after` converts. A published time is sent as `Some` of the same integer.
- gRPC transport, the `mpsc` channel and its `send(..).unwrap()`, the spawned sender task, `say_hello` and `main` are left out. The reply stream is the sequence of replies sent.
- The Discord bot (`bot/`), the command-line client and the module wiring files are not part of this model.
- The `quick_impl!` conversions in `error/feed.rs` and `error/db.rs` are not modelled, because that macro is not defined in any available file.
- `Foreign` keeps only the display text of each library error, plus diesel's `NotFound`. The text diesel gives `NotFound` is taken to be "Record not found".
- 32-bit serial ids and `SystemTime` values are unbounded integers here. Times count nanoseconds.
- `Sync.WriteCheckpoint`: the update writes the checkpoint `m` exactly. The `last_update` column is a `Timestamp` (`schema.rs:14`), which keeps whole microseconds, so the program stores `m` rounded down to the microsecond. The model therefore assumes publish times are whole microseconds. The set-checkpoint and resync results rely on that. `Canvas.TruncatedCheckpointRedelivers` shows what happens otherwise.
- `Db.Store.SetLastUpdate`: stores the checkpoint exactly, with the same whole-microsecond assumption as `Sync.WriteCheckpoint`.

The source does not agree with itself in four places. Each file is modelled as written:

- `server/src/main.rs:183-195` matches on `MyError::Feed(..)`, `MyError::Db(..)`, `FeedError::InvalidFeedUrl` and `DbError::UniqueViolation`. None of them exists: `MyError` is a struct (`error.rs:4-7`), `FeedError` has no `InvalidFeedUrl` (`error/feed.rs:8-21`), and `DbError` has no `UniqueViolation` (`error/db.rs:8-18`). `Server.Subscribe` therefore takes the failure kinds the handler is written against, `SubscribeFailure`. With the crate's actual `MyError`, every failure would get "Oops something went wrong".
- `canvas.rs:189-191` and `canvas.rs:213-215` read `DbFeed::get_all` as returning `Result<Option<Vec<_>>>`, but it returns `Result<Vec<_>>` (`db.rs:70`). `Sync.GetAll` and `Sync.GetNew` take the lookup in the shape `canvas.rs` reads it, and `Db.GetAll` returns it as `db.rs` defines it.
- `main.rs:108` takes `(feed, subscribers)` pairs from `Feed::get_new`, which returns plain feeds (`canvas.rs:212`). `Server.NewAnnouncements` takes pairs, as the handler reads them.
- `main.rs:171-181` expects a title from `DbSubscription::add`, which returns `()` (`db.rs:77-118`). `Server.Subscribe` takes the title as part of its input.

## Findings

| source | as written | input that shows it | evidently intended | confidence | as-written member | corrected member |
|---|---|---|---|---|---|---|
| discord-announcements/src/models/canvas.rs:234-237 | `get_new` writes row `i`'s new checkpoint to every row whose `canvas_id` equals the *fetched* feed's id. Row `i` itself is never named in the update. | Rows `(1, "a", u1, 100)` and `(2, "b", u2, 0)`. The url `u2` now serves feed `"a"`, with an announcement published at 50. Row 1's checkpoint moves back from 100 to 50, and row 2 stays at 0, so row 2's announcement at 50 is reported again on every later call. | Update the row being processed, by its primary key, so that no checkpoint ever moves backward. | low: not executed; needs a url whose feed id differs from the row's canvas id | `Sync.CanvasKeyedSyncCanRegress` | `Sync.RowKeyedSyncNeverRegresses` |
