/**
 * The parsed Atom feed of a course's announcements, and the new-entry filter
 * `Feed::after`. Timestamps are integers counting nanoseconds; `UNIX_EPOCH`
 * is 0.
 */
module Canvas {
  import opened Wrappers

  const UNIX_EPOCH: int := 0

  datatype Link = Link(rel: string, href: string)

  datatype Author = Author(name: string)

  datatype Content = Content(contentType: string, content: string)

  datatype Announcement = Announcement(
    title: string,
    id: string,
    updated: int,
    published: int,
    link: Link,
    author: Author,
    content: Content)

  /** A fetched feed; `id` is the feed's canonical (canvas) id. */
  datatype Feed = Feed(
    xmlns: string,
    id: string,
    title: string,
    updated: int,
    link: Link,
    announcements: seq<Announcement>)

  /**
   * The announcements of `s` published strictly after `t`, in their original
   * order (what `retain(|a| a.published > t)` leaves).
   */
  function PublishedAfter(s: seq<Announcement>, t: int): (kept: seq<Announcement>)
    ensures |kept| <= |s|
    ensures forall k :: 0 <= k < |kept| ==> kept[k].published > t
  {
    if s == [] then []
    else
      var last := s[|s| - 1];
      var front := PublishedAfter(s[..|s| - 1], t);
      assert s == s[..|s| - 1] + [last];
      if last.published > t then front + [last] else front
  }

  /**
   * The latest publish time in `s`, or `None` for an empty sequence (what
   * `iter().max_by_key(|f| f.published).map(|f| f.published)` gives).
   */
  function Latest(s: seq<Announcement>): (m: Option<int>)
    ensures m.None? <==> s == []
    ensures m.Some? ==> exists k :: 0 <= k < |s| && s[k].published == m.value
    ensures m.Some? ==> forall k :: 0 <= k < |s| ==> s[k].published <= m.value
  {
    if s == [] then None
    else
      var last := s[|s| - 1].published;
      match Latest(s[..|s| - 1])
      case None => Some(last)
      case Some(front) => Some(if front < last then last else front)
  }

  /** The feed with only the announcements published after `t`. */
  function FeedAfter(feed: Feed, t: int): (kept: Feed)
    ensures kept.announcements == PublishedAfter(feed.announcements, t)
    ensures kept == feed.(announcements := kept.announcements)
  {
    feed.(announcements := PublishedAfter(feed.announcements, t))
  }

  /** The `retain` step of `after`, as a loop over the announcements. */
  method Retain(s: seq<Announcement>, t: int) returns (kept: seq<Announcement>)
    ensures kept == PublishedAfter(s, t)
  {
    kept := [];
    var i := 0;
    while i < |s|
      invariant 0 <= i <= |s|
      invariant kept == PublishedAfter(s[..i], t)
    {
      PublishedAfterExtend(s, i, t);
      if s[i].published > t {
        kept := kept + [s[i]];
      }
      i := i + 1;
    }
    assert s[..|s|] == s;
  }

  /** The maximum scan of `after`, as a loop over the announcements. */
  method MaxPublished(s: seq<Announcement>) returns (m: Option<int>)
    ensures m == Latest(s)
  {
    m := None;
    var i := 0;
    while i < |s|
      invariant 0 <= i <= |s|
      invariant m == Latest(s[..i])
    {
      assert s[..i + 1][..i] == s[..i];
      m := match m
        case None => Some(s[i].published)
        case Some(front) => Some(if front < s[i].published then s[i].published else front);
      i := i + 1;
    }
    assert s[..|s|] == s;
  }

  /**
   * `Feed::after(&mut self, after)`: keeps only the announcements published
   * after `after` and returns the latest retained publish time, if any.
   * The Rust method updates the feed it owns in place; here the updated feed
   * is returned.
   */
  method After(feed: Feed, after: int) returns (kept: Feed, latest: Option<int>)
    ensures kept == FeedAfter(feed, after)
    ensures latest == Latest(kept.announcements)
  {
    var announcements := Retain(feed.announcements, after);
    kept := feed.(announcements := announcements);
    latest := MaxPublished(kept.announcements);
  }

  /**
   * The filter is determined by what it does to one announcement and by
   * commuting with concatenation: it keeps survivors in their original order.
   */
  lemma {:induction false} PublishedAfterAppend(s1: seq<Announcement>, s2: seq<Announcement>, t: int)
    ensures PublishedAfter(s1 + s2, t) == PublishedAfter(s1, t) + PublishedAfter(s2, t)
    decreases |s2|
  {
    if s2 == [] {
      assert s1 + s2 == s1;
    } else {
      var s2' := s2[..|s2| - 1];
      PublishedAfterAppend(s1, s2', t);
      assert (s1 + s2)[..|s1 + s2| - 1] == s1 + s2';
      assert (s1 + s2)[|s1 + s2| - 1] == s2[|s2| - 1];
    }
  }

  /** An announcement survives the filter if and only if it was there and is after `t`. */
  lemma {:induction false} PublishedAfterMembers(s: seq<Announcement>, t: int)
    ensures forall a :: a in PublishedAfter(s, t) <==> a in s && a.published > t
  {
    if s != [] {
      var front, last := s[..|s| - 1], s[|s| - 1];
      PublishedAfterMembers(front, t);
      assert s == front + [last];
      forall a
        ensures a in s <==> a in front || a == last
      {
      }
    }
  }

  /** Extending the input by one announcement extends the result by it exactly when it is after `t`. */
  lemma PublishedAfterExtend(s: seq<Announcement>, i: nat, t: int)
    requires i < |s|
    ensures PublishedAfter(s[..i + 1], t) == PublishedAfter(s[..i], t) + (if s[i].published > t then [s[i]] else [])
  {
    assert s[..i + 1][..i] == s[..i];
  }

  lemma PublishedAfterSingle(a: Announcement, t: int)
    ensures PublishedAfter([a], t) == if a.published > t then [a] else []
  {
    assert [a][..0] == [];
  }

  /** Filtering twice with the same cutoff is filtering once. */
  lemma {:induction false} PublishedAfterIdempotent(s: seq<Announcement>, t: int)
    ensures PublishedAfter(PublishedAfter(s, t), t) == PublishedAfter(s, t)
  {
    var kept := PublishedAfter(s, t);
    AllAfterIsKept(kept, t);
  }

  /** A sequence whose every element is after `t` is left as it is. */
  lemma {:induction false} AllAfterIsKept(s: seq<Announcement>, t: int)
    requires forall k :: 0 <= k < |s| ==> s[k].published > t
    ensures PublishedAfter(s, t) == s
  {
    if s != [] {
      AllAfterIsKept(s[..|s| - 1], t);
      assert s[..|s| - 1] + [s[|s| - 1]] == s;
    }
  }

  /** Filtering at `t` and then at a later `u` is filtering at `u`. */
  lemma {:induction false} PublishedAfterComposes(s: seq<Announcement>, t: int, u: int)
    requires t <= u
    ensures PublishedAfter(PublishedAfter(s, t), u) == PublishedAfter(s, u)
  {
    if s != [] {
      var front, last := s[..|s| - 1], s[|s| - 1];
      PublishedAfterComposes(front, t, u);
      if last.published > t {
        PublishedAfterAppend(PublishedAfter(front, t), [last], u);
        PublishedAfterSingle(last, u);
      }
    }
  }

  /** Nothing survives a cutoff that bounds every publish time. */
  lemma {:induction false} NothingAfterBound(s: seq<Announcement>, m: int)
    requires forall k :: 0 <= k < |s| ==> s[k].published <= m
    ensures PublishedAfter(s, m) == []
  {
    if s != [] {
      NothingAfterBound(s[..|s| - 1], m);
    }
  }

  /**
   * What `after` promises: if it returns `Some(m)` then `m` is later than the
   * cutoff, and filtering the result again at `m` keeps nothing.
   */
  lemma AfterThenAfterLatest(feed: Feed, t: int, m: int)
    requires Latest(FeedAfter(feed, t).announcements) == Some(m)
    ensures m > t
    ensures FeedAfter(FeedAfter(feed, t), m).announcements == []
  {
    NothingAfterBound(FeedAfter(feed, t).announcements, m);
  }

  /** Nanoseconds per microsecond: the `last_update` column keeps whole microseconds. */
  const NANOS_PER_MICRO: int := 1000

  /**
   * A checkpoint `m` with a sub-microsecond part is stored rounded down to the
   * microsecond, and filtering at the stored value keeps the announcement
   * published at `m` once more.
   */
  lemma TruncatedCheckpointRedelivers(feed: Feed, t: int, m: int)
    requires Latest(FeedAfter(feed, t).announcements) == Some(m)
    requires m % NANOS_PER_MICRO != 0
    ensures FeedAfter(feed, m - m % NANOS_PER_MICRO).announcements != []
  {
    var kept := FeedAfter(feed, t).announcements;
    var k :| 0 <= k < |kept| && kept[k].published == m;
    PublishedAfterMembers(feed.announcements, t);
    PublishedAfterMembers(feed.announcements, m - m % NANOS_PER_MICRO);
    assert kept[k] in FeedAfter(feed, m - m % NANOS_PER_MICRO).announcements;
  }

  /** `after` returns `None` exactly when nothing was retained. */
  lemma AfterNoneIffEmpty(feed: Feed, t: int)
    ensures Latest(FeedAfter(feed, t).announcements).None?
        <==> forall k :: 0 <= k < |feed.announcements| ==> feed.announcements[k].published <= t
  {
    var kept := FeedAfter(feed, t).announcements;
    PublishedAfterMembers(feed.announcements, t);
    if kept == [] {
      forall k | 0 <= k < |feed.announcements|
        ensures feed.announcements[k].published <= t
      {
        var a := feed.announcements[k];
        assert a in feed.announcements;
      }
    } else {
      assert kept[0] in feed.announcements;
    }
  }
}
