# lbx-bot rating pipeline, in Dafny

This project models the core of lbx-bot, a Discord bot for a server's
Letterboxd members.

- **Scraping and storing ratings.** `update.py` scrapes each followed
  member's rated films and upserts one `(lb_id, movie_id)` rating document
  per film. Rated films get their star tier; the two scaled accounts are
  ×1.25; watched-only films get -1. It then recomputes each film's server
  statistics: `guild_avg`, `rating_count` and `watch_count`.
- **Reading the statistics.** The bot reads these back in the "who knows"
  list and the top-films list (`utils/film.py` and its older copy
  `film.py`).
- **Diary feed.** It picks new diary entries from a watermarked activity
  feed (`bot.py`). As written, the feed check hands them to the older
  two-parameter `get_diary_embed(api, dids)` of `diary.py` with one
  argument, so any report raises (see Findings). The renderer the call
  evidently means, the one-parameter `get_diary_embed(dids)` of
  `utils/diary.py`, is modelled on its own.
- **Watchlists.** It syncs and samples members' watchlists
  (`cogs/film.py`).

**How the model represents the system.**
- **Stores.** The MongoDB collections are sequences of documents inside the
  class `Docs.Database`. An upsert replaces the first document with the
  same key or appends a new one.
- **Network.** The Letterboxd site and API are function parameters from a
  URL, query or cursor to the parsed answer.
- **Exceptions.** Python exceptions are the `Err` side of a `Result`.
- **Ratings.** Rating values are exact `real`s.

**Modules.**
- `Common`: Python string helpers with their round trips.
- `Docs`: the stores, upsert and the aggregate rule.
- `Update`: `update.py`.
- `FilmInfo`: the helpers shared by `utils/film.py`, `film.py` and
  `cogs/film.py`.
- `FilmQueries`: who-knows and top films, in both versions.
- `BotCommands`: `bot.py`.
- `FilmCog`: `cogs/film.py`.
- `Diary`: `utils/diary.py`.

**Imperative code.** Where the source loops and mutates (the record
extraction, the page loops, the recompute loops, `extend`, `check_feed`,
the country and diary string building, the watchlist pagination), the model
is a method. Each such method is proved equal to a specification function,
and the properties are proved as lemmas about that function.

## Model

| member | source | states |
|---|---|---|
| Common.ParseInt | update.py:35 | `int(s)` succeeds exactly on an optionally signed run of ASCII digits, and an unsigned run gives its decimal value |
| Common.IntToStringRoundTrip | utils/film.py:15 | rendering an integer with `str` and parsing it back gives the same integer |
| Common.Split | update.py:74 | `split` on one character gives at least one part, and no part contains the separator |
| Common.JoinSplit | update.py:74 | joining the parts of a split with the separator gives back the text |
| Common.SplitJoin | update.py:74 | splitting separator-free parts joined with the separator gives back the parts |
| Common.SecondToLast | update.py:74 | `xs[-2]` is the second-to-last element, and `IndexError` on fewer than two |
| Common.LinkSlugRoundTrip | update.py:74 | the slug taken as the second-to-last `/` segment of `base/slug/` is that slug |
| Common.RemoveChar | update.py:35 | `replace(c, '')` leaves no `c`, keeps every other character as often as it occurs, and changes nothing in a text without `c` |
| Common.RemoveCharAppend | update.py:35 | removing a character works piece by piece, so the other characters keep their order |
| Common.RemoveGroupingComma | update.py:35 | a number grouped with a comma, `1,234`, loses only its comma |
| Common.Capitalize | utils/film.py:163 | `capitalize` upper-cases the first character, lower-cases the rest, and keeps the length |
| Common.CaseKeepsPunctuation | utils/film.py:163 | case changes neither create nor remove `-` or spaces |
| Docs.FirstIndex | update.py:99-105 | the position of the first document with a key, and `None` exactly when no document has it |
| Docs.LookupUpsert | update.py:99-105 | after one upsert the key holds the new record, and every other key is unchanged |
| Docs.LookupUpsertAll | update.py:147-151 | after the bulk upsert a re-scraped pair holds its last scraped value, and every other pair holds what it held |
| Docs.UpsertAllKeepsUntouched | update.py:147-151 | documents whose key the batch does not write stay in place and unchanged |
| Docs.UpsertAllKeepsUniqueKeys | update.py:147-151 | the ratings store never gains a second document for the same `(lb_id, movie_id)` |
| Docs.UpsertAllIdempotent | update.py:147-151 | applying the same batch twice gives the same store as applying it once |
| Docs.WatchCountIsRowCount | update.py:202 | `watch_count` is the number of rows of the film, and `rating_count` never exceeds it |
| Docs.AverageWithin | update.py:197 | when the film has rated rows and each lies in [lo, hi], so does `guild_avg` |
| Docs.AggregateIgnoresOrder | update.py:188-203 | the statistics depend only on the multiset of row values, not on the order the scan returns them |
| Docs.UpsertFilm | update.py:205-210 | the film upsert sets the given fields on the first document of the film, keeps its other fields and every other document, or appends one |
| Docs.FindUserByHandle | update.py:115 | `find_one` by handle returns a stored user with that handle, and nothing exactly when there is none |
| Docs.FindUserByUid | update.py:213 | `find(...)[0]` by member id returns the first match, and `IndexError` when there is none |
| Docs.SetPageCount | update.py:60 | the page-count update sets `num_ratings_pages` on the first user with the handle, leaves every other user as it was, and creates no user |
| Update.LastPageNumber | update.py:33-39 | the last pagination text, commas removed, as an integer; 1 without pagination; `ValueError` on a non-number |
| Update.PageCount | update.py:29-39 | -1 when the body is marked `error`, otherwise the last page number; `KeyError` when the body has no class |
| Update.PageCountReadsRenderedNumber | update.py:33-35 | the count reads back exactly the number rendered in the last pagination link |
| Update.PageCountReadsGroupedNumber | update.py:33-35 | a page number rendered with a thousands comma reads back as the digits around it |
| Update.StoredPageCountIsParsed | update.py:52-60 | after `get_page_counts`, every listed handle with a user carries its own page's count |
| Update.StoreOthersUnchanged | update.py:52-60 | users whose handle is not listed are not touched by `get_page_counts` |
| Update.GetPageCounts | update.py:41-60 | the loop writes each profile's count to its user in turn, and stops at the first exception |
| Update.RatingTier | update.py:83-84 | the tier is never negative, and `IndexError` arises exactly for an empty class list |
| Update.TierRoundTrip | update.py:83-84 | a last class `rated-<n>` gives the tier `n`, whatever classes precede it |
| Update.ExtractPosterRecord | update.py:73-92 | an entry yields one record tagged with the page owner and the link's slug; an unrated entry yields the -1 sentinel only with `return_unrated`, and the sentinel is never scaled; a rated entry yields its tier, ×1.25 exactly for `hizv` and `ketchupin` |
| Update.ExtractPageRecords | update.py:67-107 | a page yields at most one record per entry, exactly one each with `return_unrated`, all tagged with the owner, and no sentinel without `return_unrated` |
| Update.GenerateRatingsOperations | update.py:63-107 | the loop's operations are the page's records in entry order, or the first entry's exception |
| Update.ResolvePageCount | update.py:113-116 | a given non-zero page count is used; otherwise the count cached on the user with the handle, `KeyError` when it has none cached, and `TypeError` when there is no such user |
| Update.PagesRequested | update.py:123-125 | a profile counted as -1 requests no page and yields no record; a count n requests exactly pages 1 to n in order |
| Update.PageRequests | update.py:121-125 | the request loop builds exactly the URLs of pages 1 to n |
| Update.CollectRecords | update.py:131-141 | per-page records are concatenated in page order |
| Update.GetUserRatings | update.py:110-153 | the records of pages 1 to n in order; when storing, the ratings store becomes their bulk upsert; nothing else changes, and an exception writes nothing |
| Update.GetRatings | update.py:156-162 | every profile is synced in turn with unrated entries; the first exception stops the run |
| Update.DistinctMovies | update.py:188 | `distinct('movie_id')` lists no film twice |
| Update.DistinctMoviesOf | update.py:188 | a film is listed by `distinct` exactly when some rating row has it |
| Update.Tally | update.py:189-197 | the loop's `total`, `r_count` and `ur_count` are the film's rated total, rated count and sentinel count |
| Update.RecomputeAllConsistent | update.py:188-210 | each listed film gets the statistics of its current rows and keeps its other fields; unlisted films are untouched |
| Update.RecomputeFor | update.py:188-210 | the recompute loop upserts each film's statistics in turn |
| Update.FullSync | update.py:175-210 | the users get the page counts of every handle, the ratings become the sync of every handle from those counts (or stay put when the counting fails), every rated film then carries the statistics of its current rows, other films are unchanged, and a failure leaves `films` as it was |
| Update.IncrementalSync | update.py:212-244 | the member sync, as written: the rows are upserted without unrated entries, and the recompute over `uid` writes no film |
| Update.IncrementalSyncLeavesStale | update.py:222 | concrete store where the written incremental sync leaves a film's average stale after a re-rating |
| Update.MemberRowsOf | update.py:222 | the member's rows hold a film exactly when the member has a rating row for it |
| Update.IncrementalSyncRecompute | update.py:212-244 | the member sync with the evidently intended recompute: the ratings become the member's fresh records upserted, as in the written sync, and every film the member rated gets the statistics of its current rows |
| FilmInfo.GetLink | utils/film.py:37-41 | the url of a `letterboxd` link, and `None` exactly when there is no such link (same rule at film.py:36-40 and cogs/film.py:70-74) |
| FilmInfo.GetLinkFirst | utils/film.py:37-41 | the link found is that of the first `letterboxd` entry |
| FilmInfo.MovieIdOfLink | utils/film.py:115-116 | the slug of the film's link; `AttributeError` when the film has no Letterboxd link |
| FilmInfo.PosterUrl | utils/film.py:139-141 | the poster is the last size's url, and `IndexError` for an empty size list |
| FilmInfo.RuntimeFooter | utils/film.py:26-33 | the footer starts on a new line exactly when the runtime is an hour or more |
| FilmInfo.FooterRoundTrip | utils/film.py:26-33 | the hours and minutes of the footer add back up to the runtime (same rule at film.py:25-32) |
| FilmInfo.CountryCap | utils/film.py:57-66 | at most three countries, at most two at verbosity 0, never more than the film has |
| FilmInfo.DropLast2Terminated | utils/film.py:64-66 | the accumulated `name, ` text with its last two characters dropped is the names joined by `, ` |
| FilmInfo.CountryText | utils/film.py:57-66 | the country loop yields the first capped countries in input order joined by `, `, or nothing (same rule at film.py:56-65) |
| FilmInfo.GetSearchResult | utils/film.py:92-103 | the film of the first search item, or `None` when the search finds nothing |
| FilmInfo.ChoicePrecedence | film.py:3-12 | the current module prefers the search to the id; the older module prefers the id, and raises `UnboundLocalError` with neither |
| FilmInfo.ChoicesAgree | utils/film.py:4-10 | with exactly one of keywords and id given, both modules pick the same film |
| FilmQueries.WkLinesCount | utils/film.py:123-132 | one line per row of the film, and a `✓` line exactly for each unrated row |
| FilmQueries.WhoKnowsRows | utils/film.py:121-132 | the row loop's lines and counters are the film's lines and statistics |
| FilmQueries.WhoKnowsList | utils/film.py:106-150 | no match gives no result and no write; otherwise the film document gets its name, link, year, poster and current statistics |
| FilmQueries.WhoKnowsStatistics | utils/film.py:143-148 | who-knows writes the statistics a full sync would, and its `watch_count` counts the lines shown |
| FilmQueries.ServerFooter | film.py:145-146 | the older footer reads `guild_avg` from any stored document, and raises `KeyError` when it is missing |
| FilmQueries.GuardedFooter | utils/film.py:78-79 | the guarded footer shows an average only for a document that has one |
| FilmQueries.LegacyKeepsStatistics | film.py:119-148 | the older who-knows writes name, year and poster only, so every film keeps its statistics |
| FilmQueries.GuardedAgrees | film.py:145-146 | the guarded version gives the same embed whenever the written one answers, and never raises `KeyError` |
| FilmQueries.LegacySecondCallFails | film.py:145-148 | on a film with no document, the first older who-knows succeeds and a second raises `KeyError`, while the guarded version answers both |
| FilmQueries.WhoKnowsEmbed | film.py:106-149 | the older who-knows as written: lines in row order, the footer from the stored document, then the name, year and poster upsert |
| FilmQueries.WhoKnowsEmbedGuarded | film.py:106-149 | the older who-knows with the footer guarded |
| FilmQueries.QualifyingMeans | utils/film.py:153-155 | the filter `rating_count > threshold-1` keeps exactly the films with at least `threshold` ratings |
| FilmQueries.SortByAvg | utils/film.py:155 | the films sorted by non-increasing `guild_avg` as a permutation of the store, missing averages last |
| FilmQueries.SlugTitleWords | utils/film.py:163 | the title built from a slug has no `-`, and its words are the capitalised non-numeric segments |
| FilmQueries.LineOf | utils/film.py:162-164 | formatting a line raises `KeyError` exactly when the film lacks its average or its count |
| FilmQueries.TopFilmsList | utils/film.py:152-167 | the counter loop yields the line of each sorted qualifying film, stopping at 200 |
| FilmQueries.TopFilmsBounded | utils/film.py:157-165 | at most 200 lines, each for a film with at least `threshold` ratings |
| FilmQueries.TopFilmsOrdered | utils/film.py:155 | averages never increase down the list |
| FilmQueries.TopFilmsComplete | utils/film.py:157-165 | with no more than 200 qualifying films, every one of them is listed |
| FilmQueries.LegacyLineOf | film.py:162-165 | the label and the link target are always the same text, so a stored name replaces the slug in both |
| FilmQueries.LegacyTopFilmsList | film.py:151-167 | the older list: the first 200 results of the same query, one line each |
| FilmQueries.LegacyTopAgrees | film.py:151-167 | both versions list the same films in the same order with the same numbers, and fail on the same documents |
| BotCommands.TrackedIsPrefix | bot.py:328-337 | `extend` takes the first `limit` tracked activities in order, all of them with fewer, none with limit 0 |
| BotCommands.Extend | bot.py:328-337 | the caller's list keeps its contents as a prefix and gains the tracked activities, and the same list is returned |
| BotCommands.NewDiaryIds | bot.py:55-59 | the ids collected are those of the tracked activities created after the watermark, in feed order (`ReportedExactly` states which ones) |
| BotCommands.Bot.CheckFeed | bot.py:37-68 | as written: with no new entry in any feed the watermark moves to the current time; the first feed with a new entry raises `TypeError` at the one-argument `get_diary_embed` call, and the watermark stays |
| BotCommands.NewEntryRaises | bot.py:54-61 | a single followed member with a diary entry logged after the watermark makes the report non-empty, so the written check raises |
| BotCommands.Bot.CheckFeedIntended | bot.py:37-68 | with the one-argument renderer: every feed's new entries are reported in order, and the watermark then moves to the current time |
| BotCommands.ReportedExactly | bot.py:54-59 | an entry is reported exactly when it is among the feed's first four tracked activities and was created strictly after the watermark |
| BotCommands.WatermarkHolds | bot.py:58-68 | once a check has completed at time `now`, activity created no later than `now` is never reported again |
| BotCommands.WrandQuantity | bot.py:189 | the sample size is between 0 and 100 |
| BotCommands.WrandQuantityOf | bot.py:189 | a written-out count of at most 100 is taken as given; anything else gives 100 |
| BotCommands.PageNumbering | bot.py:89-91 | the `j`-th item of the data is numbered `j + 1` on whichever page it falls |
| BotCommands.TopFilmsCommand | bot.py:310-321 | a non-numeric threshold raises `ValueError`; one below 1 is refused before any store is read; otherwise the films are paged |
| BotCommands.GuardExcludesUnrated | bot.py:312-315 | every paged film has at least one real rating |
| FilmCog.DictValue | cogs/film.py:29 | the comprehension keeps, under a name, the id of the last list with that name |
| FilmCog.BestIndex | cogs/film.py:30 | `extractOne` picks the first key with the highest score |
| FilmCog.DictKeysOf | cogs/film.py:29 | the comprehension's keys are exactly the list names |
| FilmCog.DictKeysOrder | cogs/film.py:29 | the keys come in order of first appearance: each key occurs in the list before any occurrence of a later key, so a tie for the best score goes to the name listed first |
| FilmCog.GetListIdChoice | cogs/film.py:19-32 | an id is returned exactly when some name scores above 70, and it is that of the last list with a top-scoring name; no lists raises `TypeError` |
| FilmCog.BeforeSeparatorIsFirst | cogs/film.py:43 | the bio is cut at the first `::`, with none earlier |
| FilmCog.BioBlock | cogs/film.py:40-45 | at verbosity 0 the bio is its first `min(250, length)` characters plus `...`; otherwise the whole cut bio; `IndexError` with no biography |
| FilmCog.WatchlistCountReads | cogs/film.py:153 | a count written in the span, before a non-breaking space, is read back exactly |
| FilmCog.FollowUpCountIs | cogs/film.py:160-165 | the number of follow-up requests is the shortfall over the first page in hundreds, rounded up |
| FilmCog.FetchWatchlist | cogs/film.py:154-165 | the ids are the first page's followed by each follow-up page's, in request order; `KeyError` for a missing cursor; no first-page ids means nothing |
| FilmCog.ShortWatchlist | cogs/film.py:160-161 | a watchlist no longer than its first page needs no follow-up request |
| FilmCog.SetWatchlist | cogs/film.py:167-175 | the update sets `wlist` and `wsize` on the first member with that list id and changes nothing else |
| FilmCog.Store | cogs/film.py:154-175 | fetched ids are written for the member with the size and the reply is `Synced`; nothing is written without ids or on an error |
| FilmCog.Wsync | cogs/film.py:123-177 | no list id or a failed page without a size ends before any request; otherwise the page's count drives the pagination, and fetched ids are stored and replied as `Synced` |
| FilmCog.GivenSizeIgnored | cogs/film.py:148-153 | the written rule ignores a supplied size, and raises `IndexError` for status 404 with size 250 where the intended rule gives 250 |
| FilmCog.WsyncIntended | cogs/film.py:123-177 | `wsync` using the supplied size when the page failed |
| FilmCog.PyIndex | cogs/film.py:194 | Python indexing, negative indices counting from the end, `IndexError` outside |
| FilmCog.FindMember | cogs/film.py:184 | `find_one` by member id returns the first such member, or nothing |
| FilmCog.WrandRange | cogs/film.py:190-193 | a start at or past the size becomes size - 1 and any other start is kept; an end of 0 or past the size becomes the size and any other end is kept |
| FilmCog.Draw | cogs/film.py:194 | `randrange(lo, hi)` gives an index in `[lo, hi)`, and every such index for some random number |
| FilmCog.Wrand | cogs/film.py:179-197 | an unknown member raises `TypeError`; without a synced list the reply asks for a sync; an empty range raises `ValueError`; otherwise the film is the list entry at the drawn index, or `IndexError` only when that index is outside the list |
| FilmCog.WrandPicksFromList | cogs/film.py:188-194 | on a fully synced list with a non-negative start, the pick succeeds and is an entry of the list |
| Diary.StarsRoundTrip | utils/diary.py:15-18 | the star text gives back the rating: one `★` per whole star, then `½ ` exactly for a half |
| Diary.EntryText | utils/diary.py:10-25 | a block exists exactly when the entry has its year and diary details, and raises `KeyError` otherwise |
| Diary.EntryTextShape | utils/diary.py:11-25 | a block opens with the linked title and year, then the date, the rating text, ` <3` exactly when liked, ` ↺` exactly on a rewatch, the review in triple backticks when there is one, and ends the line |
| Diary.EntryBlock | utils/diary.py:11-25 | the conditional appends for one entry build exactly its block |
| Diary.BlocksAppend | utils/diary.py:8-25 | the text for two runs of ids is the first run's text followed by the second's |
| Diary.BlocksOk | utils/diary.py:8-25 | the text exists exactly when every entry has its release year and its diary details |
| Diary.FetchBlock | utils/diary.py:9-25 | one turn of the loop yields that id's block (or its error) and keeps that entry's film |
| Diary.DescribeEntries | utils/diary.py:7-25 | the loop builds the ids' blocks in order, or stops with the first failing entry's error; when it completes, `film` is the last entry's film |
| Diary.Thumbnail | utils/diary.py:27-28 | the thumbnail is the last poster size; `IndexError` for an empty size list |
| Diary.GetDiaryEmbed | utils/diary.py:6-30 | the description is the ids' blocks in order, and the thumbnail is from the last entry's film; no ids raises `UnboundLocalError` |

## Left out

- Network and scheduling: HTTP fetches, `asyncio.gather` and the API
  client are function parameters that return parsed answers. One failed
  fetch raises, as with `gather` without `return_exceptions`.
- HTML parsing: a page is the class list of its body, the pagination texts
  and the poster entries. The watchlist page is its status and the markup
  of its first count span.
- Database drivers: collections are sequences of documents. `bulk_write`
  with `ordered=False` is modelled as applied in order. That gives the same
  store as any order only when the keys are distinct across the whole
  batch; a film repeated across pages of one profile ends with its last
  page's record in the model, where the database leaves the winner
  unspecified. Its error report is only printed.
- Floating-point rounding and formatting (`:.2f`, the 0.5× display scaling,
  `human_count`): values are exact reals, and lines carry the raw numbers.
- Update.GetUserRatings: returns the records also when storing, where the
  Python function returns `None`.
- Common.ParseInt: `int()` leniency (surrounding whitespace, underscores,
  non-ASCII digits) is not modelled.
- The MongoDB sort of `top_films_list` is modelled as stable, with
  missing averages last. The database's order for ties is unspecified.
- The SQLite and PostgreSQL member tables: the rows `check_feed` iterates
  and the list id `wsync` looks up are parameters.
- `datetime.strptime` and `utcnow`: times are integers, and the current
  time is a parameter.
- `random.randrange`: the random number is a parameter `pick` of `wrand`; the index drawn is `lo + pick % (hi - lo)`, which reaches every index of the range.
- `get_description` apart from its countries and its server line:
  directors, genres, `originalName`, the statistics line and the synopsis.
- `get_crew_embed` apart from the biography: the IMDb search, birth and
  death lines and the Wikipedia thumbnail.
- FilmCog.GetListIdChoice: the fuzzy matcher's scores are a parameter.
  The list request (50 per page, published, by popularity) is not modelled.
- Diary.EntryText: the rating is counted in half stars. Assuming the API
  sends ratings as floats (multiples of one half), `str(rating)` ends in `5`
  exactly for an odd number of halves; a whole rating sent as an integer
  such as `5` would gain a stray `½` in the source, which the model does not
  show. `markdownify` is a parameter.
- Common.Capitalize: case mapping covers ASCII letters only, where Python's
  `str.capitalize` maps all of Unicode; Letterboxd slugs are ASCII.
- Discord embeds, menus, messages, cooldowns and help: only the text and
  data they are built from are modelled.
- `bot.py`'s `wrand` body beyond its quantity rule: the member lookup, the
  watchlist request and the random item.
- `lrand`, `follow`, `unfollow`, `usync`, `ssync` and the cogs for
  ratings and follows are command glue, shell-outs and raw store writes.
- api.py (request signing), aioshell.py (subprocesses), lists.py, crew.py,
  cogs/fun.py (image composition) and the older `diary.py` are not part of
  this model, apart from the two-parameter signature of its
  `get_diary_embed` that `bot.py` imports.

## Findings

| source | as written | input that shows it | evidently intended | confidence | as-written member | corrected member |
|---|---|---|---|---|---|---|
| update.py:222 | the member sync recomputes the films of `ratings.find({'uid': ...})`, a field rating documents never carry, so no film is recomputed | a member re-rates film `x` from 8 to 10; the film keeps `guild_avg` 8 | recompute every film the member has a rating row for | not executed | Update.IncrementalSyncLeavesStale | Update.IncrementalSyncRecompute |
| film.py:145-146 | the footer reads `db_info['guild_avg']` from any stored document, but the older who-knows itself creates documents without it | two who-knows calls on a film no sync has seen: the second raises `KeyError` | show the average only when the document has one, as `utils/film.py:78` does | not executed | FilmQueries.LegacySecondCallFails | FilmQueries.GuardedAgrees |
| bot.py:61 | `check_feed` calls `get_diary_embed(dids)`, but the function it imports from `diary.py` (line 5) takes `(api, dids)`, so the call raises `TypeError`; nothing is sent and `prev_time` never moves | one followed member with a diary entry logged after the watermark: the first check with a new entry raises, the feed loop stops and `prev_time` never moves | call the one-parameter `get_diary_embed(dids)` of `utils/diary.py` | not executed | BotCommands.NewEntryRaises | BotCommands.Bot.CheckFeedIntended |
| cogs/film.py:148-153 | the `else` branch always parses the count span, so a supplied size is never used, and a failed page has no span to read | status 404 with `wsync 250`: `IndexError` | use the supplied size when the page failed | not executed | FilmCog.GivenSizeIgnored | FilmCog.WsyncIntended |
