/** The bot's own rules (`bot.py`): which activities the feed tracks, the
    time watermark of the periodic feed check, the quantity argument of
    `wrand`, the numbering of menu pages and the threshold guard of
    `top_films`. */
module BotCommands {
  import opened Common
  import opened Docs
  import opened FilmQueries

  /** The activity types the feed follows. */
  const TrackingActivities: seq<string> := ["DiaryEntryActivity"]

  /** A member activity: its type, its creation time (seconds) and the diary
      entry it concerns. */
  datatype Activity = Activity(kind: string, whenCreated: int, diaryEntryId: string)

  predicate IsTracked(a: Activity) {
    a.kind in TrackingActivities
  }

  /** Every tracked activity, in order. */
  function TrackedAll(items: seq<Activity>): (r: seq<Activity>)
    ensures forall k :: 0 <= k < |r| ==> IsTracked(r[k])
    ensures |r| <= |items|
  {
    if items == [] then []
    else (if IsTracked(items[0]) then [items[0]] else []) + TrackedAll(items[1..])
  }

  /** What `extend` appends: tracked activities in order, stopping once
      `limit` of them have been taken; a negative limit is never reached. */
  function Tracked(items: seq<Activity>, limit: int): seq<Activity>
    decreases |items|
  {
    if items == [] || limit == 0 then []
    else if IsTracked(items[0]) then [items[0]] + Tracked(items[1..], limit - 1)
    else Tracked(items[1..], limit)
  }

  /** `extend` takes the first `limit` tracked activities (all of them when
      the limit is negative). */
  lemma {:induction false} TrackedIsPrefix(items: seq<Activity>, limit: int)
    ensures limit < 0 ==> Tracked(items, limit) == TrackedAll(items)
    ensures limit >= 0 ==>
      Tracked(items, limit) == if |TrackedAll(items)| <= limit then TrackedAll(items) else TrackedAll(items)[..limit]
    decreases |items|
  {
    if items != [] && limit != 0 {
      var rest := TrackedAll(items[1..]);
      if IsTracked(items[0]) {
        TrackedIsPrefix(items[1..], limit - 1);
        if limit > 0 && |rest| > limit - 1 {
          assert ([items[0]] + rest)[..limit] == [items[0]] + rest[..limit - 1];
        }
      } else {
        TrackedIsPrefix(items[1..], limit);
        assert TrackedAll(items) == rest;
      }
    }
  }

  /** A list the caller owns, which `extend` appends to in place. */
  class ActivityList {
    var entries: seq<Activity>

    constructor(entries: seq<Activity>)
      ensures this.entries == entries
    {
      this.entries := entries;
    }
  }

  /** `extend`: appends the tracked activities, at most `limit` of them, to
      the caller's list and returns that same list. */
  method Extend(entries: ActivityList, items: seq<Activity>, limit: int) returns (r: ActivityList)
    modifies entries
    ensures r == entries
    ensures entries.entries == old(entries.entries) + Tracked(items, limit)
  {
    var count := 0;
    assert items[0..] == items;
    for i := 0 to |items|
      invariant entries.entries + Tracked(items[i..], limit - count) == old(entries.entries) + Tracked(items, limit)
    {
      if count == limit {
        assert Tracked(items[i..], 0) == [];
        assert entries.entries + [] == entries.entries;
        break;
      }
      assert items[i..][1..] == items[i + 1..];
      if IsTracked(items[i]) {
        assert entries.entries + ([items[i]] + Tracked(items[i + 1..], limit - count - 1))
            == (entries.entries + [items[i]]) + Tracked(items[i + 1..], limit - count - 1);
        entries.entries := entries.entries + [items[i]];
        count := count + 1;
      }
    }
    assert items[|items|..] == [];
    r := entries;
  }

  /** How many activities of each member feed are examined. */
  const FeedLimit: int := 4

  /** The diary entries of a feed created strictly after `prevTime`, in
      order. */
  function NewEntries(acts: seq<Activity>, prevTime: int): seq<string>
    decreases |acts|
  {
    if acts == [] then []
    else (if acts[0].whenCreated > prevTime then [acts[0].diaryEntryId] else []) + NewEntries(acts[1..], prevTime)
  }

  /** What one feed check reports: for each followed member, in order, the
      new diary entries among their first four tracked activities, when
      there are any. */
  function Reports(feeds: seq<seq<Activity>>, prevTime: int): seq<seq<string>>
    decreases |feeds|
  {
    if feeds == [] then []
    else
      var dids := NewEntries(Tracked(feeds[0], FeedLimit), prevTime);
      (if dids != [] then [dids] else []) + Reports(feeds[1..], prevTime)
  }

  class Bot {
    /** The time of the previous feed check. */
    var prevTime: int

    constructor(now: int)
      ensures prevTime == now
    {
      prevTime := now;
    }

    /** `check_feed` as written: every member feed (all guilds' rows, in
        order) is filtered against the watermark, but the first non-empty
        list of new diary ids is handed to the two-parameter
        `get_diary_embed(api, dids)` of `diary.py` with one argument, which
        raises `TypeError` before anything is sent and before the
        watermark moves. */
    method CheckFeed(feeds: seq<seq<Activity>>, now: int) returns (r: Result<()>)
      modifies this
      ensures Reports(feeds, old(prevTime)) == [] ==> r == Ok(()) && prevTime == now
      ensures Reports(feeds, old(prevTime)) != [] ==> r == Err(TypeError) && prevTime == old(prevTime)
    {
      assert feeds[0..] == feeds;
      for i := 0 to |feeds|
        invariant prevTime == old(prevTime)
        invariant Reports(feeds[i..], prevTime) == Reports(feeds, prevTime)
      {
        assert feeds[i..][1..] == feeds[i + 1..];
        var empty := new ActivityList([]);
        var entries := Extend(empty, feeds[i], FeedLimit);
        var tracked := entries.entries;
        assert tracked == Tracked(feeds[i], FeedLimit);
        var dids := NewDiaryIds(tracked, prevTime);
        if dids != [] {
          return Err(TypeError);
        }
      }
      assert feeds[|feeds|..] == [];
      prevTime := now;
      r := Ok(());
    }

    /** `check_feed` as evidently intended, with the one-argument
        `get_diary_embed(dids)` of `utils/diary.py`: every member feed (all
        guilds' rows, in order) is filtered against the watermark, each
        non-empty list of new diary ids is reported, and the watermark moves
        to the current time once all of them are done. */
    method CheckFeedIntended(feeds: seq<seq<Activity>>, now: int) returns (reports: seq<seq<string>>)
      modifies this
      ensures prevTime == now
      ensures reports == Reports(feeds, old(prevTime))
    {
      reports := [];
      assert feeds[0..] == feeds;
      for i := 0 to |feeds|
        invariant prevTime == old(prevTime)
        invariant reports + Reports(feeds[i..], prevTime) == Reports(feeds, prevTime)
      {
        assert feeds[i..][1..] == feeds[i + 1..];
        var empty := new ActivityList([]);
        var entries := Extend(empty, feeds[i], FeedLimit);
        var tracked := entries.entries;
        assert tracked == Tracked(feeds[i], FeedLimit);
        var dids := NewDiaryIds(tracked, prevTime);
        if dids != [] {
          assert reports + ([dids] + Reports(feeds[i + 1..], prevTime)) == (reports + [dids]) + Reports(feeds[i + 1..], prevTime);
          reports := reports + [dids];
        }
      }
      assert feeds[|feeds|..] == [];
      assert reports + [] == reports;
      prevTime := now;
    }
  }

  /** The inner loop of `check_feed`: the diary ids of the tracked
      activities created after the watermark, in feed order. */
  method NewDiaryIds(tracked: seq<Activity>, prevTime: int) returns (dids: seq<string>)
    ensures dids == NewEntries(tracked, prevTime)
  {
    dids := [];
    assert tracked[0..] == tracked;
    for j := 0 to |tracked|
      invariant dids + NewEntries(tracked[j..], prevTime) == NewEntries(tracked, prevTime)
    {
      assert tracked[j..][1..] == tracked[j + 1..];
      if tracked[j].whenCreated > prevTime {
        assert dids + ([tracked[j].diaryEntryId] + NewEntries(tracked[j + 1..], prevTime))
            == (dids + [tracked[j].diaryEntryId]) + NewEntries(tracked[j + 1..], prevTime);
        dids := dids + [tracked[j].diaryEntryId];
      }
    }
    assert tracked[|tracked|..] == [];
    assert dids + [] == dids;
  }

  predicate ReportedFrom(acts: seq<Activity>, did: string, prevTime: int) {
    exists k :: 0 <= k < |acts| && acts[k].diaryEntryId == did && acts[k].whenCreated > prevTime
  }

  lemma {:induction false} NewEntriesFrom(acts: seq<Activity>, prevTime: int, did: string)
    ensures did in NewEntries(acts, prevTime) <==> ReportedFrom(acts, did, prevTime)
    decreases |acts|
  {
    if acts != [] {
      NewEntriesFrom(acts[1..], prevTime, did);
      if ReportedFrom(acts[1..], did, prevTime) {
        var k :| 0 <= k < |acts[1..]| && acts[1..][k].diaryEntryId == did && acts[1..][k].whenCreated > prevTime;
        assert acts[k + 1] == acts[1..][k];
      }
      if ReportedFrom(acts, did, prevTime) && !(acts[0].diaryEntryId == did && acts[0].whenCreated > prevTime) {
        var k :| 0 <= k < |acts| && acts[k].diaryEntryId == did && acts[k].whenCreated > prevTime;
        assert acts[1..][k - 1] == acts[k];
      }
    }
  }

  /** A diary entry is reported for a feed exactly when one of that feed's
      first four tracked activities is about it and was created after the
      watermark. */
  lemma ReportedExactly(feed: seq<Activity>, prevTime: int, did: string)
    ensures did in NewEntries(Tracked(feed, FeedLimit), prevTime) <==>
      exists k :: 0 <= k < |Tracked(feed, FeedLimit)| && Tracked(feed, FeedLimit)[k].diaryEntryId == did
        && Tracked(feed, FeedLimit)[k].whenCreated > prevTime
    ensures |Tracked(feed, FeedLimit)| <= 4
  {
    NewEntriesFrom(Tracked(feed, FeedLimit), prevTime, did);
    TrackedIsPrefix(feed, FeedLimit);
  }

  lemma {:induction false} NothingNewAfter(acts: seq<Activity>, t: int)
    requires forall k :: 0 <= k < |acts| ==> acts[k].whenCreated <= t
    ensures NewEntries(acts, t) == []
    decreases |acts|
  {
    if acts != [] {
      NothingNewAfter(acts[1..], t);
    }
  }

  lemma {:induction false} TrackedFrom(items: seq<Activity>, limit: int, a: Activity)
    ensures a in Tracked(items, limit) ==> a in items
    decreases |items|
  {
    if items != [] && limit != 0 {
      TrackedFrom(items[1..], if IsTracked(items[0]) then limit - 1 else limit, a);
    }
  }

  /** The watermark: once a check has run at time `now`, activity created
      no later than `now` is never reported again. */
  lemma {:induction false} WatermarkHolds(feeds: seq<seq<Activity>>, now: int)
    requires forall i, k :: 0 <= i < |feeds| && 0 <= k < |feeds[i]| ==> feeds[i][k].whenCreated <= now
    ensures Reports(feeds, now) == []
    decreases |feeds|
  {
    if feeds != [] {
      var tracked := Tracked(feeds[0], FeedLimit);
      forall k | 0 <= k < |tracked| ensures tracked[k].whenCreated <= now {
        TrackedFrom(feeds[0], FeedLimit, tracked[k]);
      }
      NothingNewAfter(tracked, now);
      WatermarkHolds(feeds[1..], now);
    }
  }

  /** One followed member whose feed holds a diary entry logged after the
      watermark is enough to make the written check raise: the report is
      non-empty, the watermark stays put, and the unhandled error ends the
      feed loop. */
  lemma NewEntryRaises()
    ensures Reports([[Activity("DiaryEntryActivity", 10, "d1")]], 0) == [["d1"]]
  {
    var feed := [Activity("DiaryEntryActivity", 10, "d1")];
    assert Tracked(feed, FeedLimit) == feed by {
      assert feed[1..] == [];
    }
    assert NewEntries(feed, 0) == ["d1"] by {
      assert feed[1..] == [];
    }
    assert [[Activity("DiaryEntryActivity", 10, "d1")]][1..] == [];
  }

  // ================================================================ wrand

  /** The number of watchlist items `wrand` samples: the argument when it is
      a number below 101, 100 otherwise. */
  function WrandQuantity(arg: string): (q: int)
    ensures 0 <= q <= 100
  {
    if IsDigits(arg) && DigitsValue(arg) < 101 then DigitsValue(arg) else 100
  }

  /** A written-out count up to 100 is taken as given; a larger one, or
      anything that is not a count, becomes 100. */
  lemma WrandQuantityOf(n: nat, arg: string)
    ensures n <= 100 ==> WrandQuantity(NatToString(n)) == n
    ensures n > 100 ==> WrandQuantity(NatToString(n)) == 100
    ensures !IsDigits(arg) ==> WrandQuantity(arg) == 100
  {
    DigitsValueOfNatToString(n);
  }

  // ========================================================== menu pages

  /** Entries per menu page. */
  const PerPage: nat := 20

  /** The lines of page `currentPage`: entries numbered from
      `currentPage * 20 + 1`. */
  function PageLines(currentPage: nat, entries: seq<string>): seq<string> {
    seq(|entries|, k requires 0 <= k < |entries| => NatToString(currentPage * PerPage + k + 1) + ". " + entries[k])
  }

  function FormatPage(currentPage: nat, entries: seq<string>): string {
    Join(PageLines(currentPage, entries), "\n")
  }

  /** The entries the menu shows on page `p` of its data. */
  function MenuPage(data: seq<string>, p: nat): seq<string>
    requires p * PerPage <= |data|
  {
    data[p * PerPage .. if p * PerPage + PerPage <= |data| then p * PerPage + PerPage else |data|]
  }

  /** The number a line starts with (the text before its first `.`). */
  function LineNumber(line: string): Option<int> {
    ParseInt(Split(line, '.')[0])
  }

  /** Across pages the numbering is continuous: the `j`-th item of the data,
      wherever its page falls, is numbered `j + 1`. */
  lemma PageNumbering(data: seq<string>, p: nat, k: nat)
    requires p * PerPage <= |data|
    requires k < |MenuPage(data, p)|
    ensures MenuPage(data, p)[k] == data[p * PerPage + k]
    ensures LineNumber(PageLines(p, MenuPage(data, p))[k]) == Some(p * PerPage + k + 1)
  {
    var n := p * PerPage + k + 1;
    var digits := NatToString(n);
    var e := MenuPage(data, p)[k];
    assert '.' !in digits;
    assert digits + ". " + e == digits + ['.'] + (" " + e);
    SplitAround(digits, '.', " " + e);
    DigitsValueOfNatToString(n);
  }

  // ============================================================ top films

  datatype TopFilmsReply = AtLeastOneRating | TopPages(lines: seq<TopLine>)

  /** `top_films`: the threshold argument is parsed, refused below 1 before
      the store is read, and otherwise the older module's list is paged. */
  method TopFilmsCommand(db: Database, thresholdArg: string) returns (r: Result<TopFilmsReply>)
    ensures ParseInt(thresholdArg).None? ==> r == Err(ValueError)
    ensures ParseInt(thresholdArg).Some? && ParseInt(thresholdArg).value < 1 ==> r == Ok(AtLeastOneRating)
    ensures ParseInt(thresholdArg).Some? && ParseInt(thresholdArg).value >= 1 ==>
      var lines := LegacyLines(Take(SortByAvg(Qualifying(db.films, ParseInt(thresholdArg).value)), MaxTopFilms));
      r == (match lines case Ok(ls) => Ok(TopPages(ls)) case Err(e) => Err(e))
  {
    var threshold := ParseInt(thresholdArg);
    if threshold.None? {
      return Err(ValueError);
    }
    if threshold.value < 1 {
      return Ok(AtLeastOneRating);
    }
    var lines := LegacyTopFilmsList(db, threshold.value);
    if lines.Err? {
      return Err(lines.error);
    }
    r := Ok(TopPages(lines.value));
  }

  /** Because of the guard, every paged film has at least one real rating:
      a film only watched, never rated, is not listed. */
  lemma GuardExcludesUnrated(films: seq<Film>, threshold: int)
    requires threshold >= 1
    requires LegacyLines(Take(SortByAvg(Qualifying(films, threshold)), MaxTopFilms)).Ok?
    ensures var ls := LegacyLines(Take(SortByAvg(Qualifying(films, threshold)), MaxTopFilms)).value;
      forall k :: 0 <= k < |ls| ==> ls[k].count >= 1
  {
    LegacyTopAgrees(Take(SortByAvg(Qualifying(films, threshold)), MaxTopFilms));
    TopFilmsBounded(films, threshold);
  }
}
