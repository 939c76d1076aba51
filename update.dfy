/** The ratings ingestion pipeline of `update.py`: counting a profile's pages,
    turning each scraped page into rating records, upserting them into the
    `ratings` collection, and recomputing the per-film statistics.

    The network is a pure function from the URL requested to the page it
    returns, and a page is reduced to what the scraper reads from it. */
module Update {
  import opened Common
  import opened Docs

  /** The three Letterboxd URLs the pipeline requests. */
  datatype Url =
    | FilmsUrl(lbId: string)                    // /{lb_id}/films/
    | ByDateUrl(lbId: string)                   // /{lb_id}/films/by/date
    | RatingsPageUrl(lbId: string, page: int)   // /{lb_id}/films/by/date/page/{page}/

  /** One `li.poster-container` entry: the `data-target-link` of its film
      poster (`None` when the poster `div` is missing) and the class list of
      its `span.rating` (`None` when the film was watched without a rating). */
  datatype Poster = Poster(targetLink: Option<string>, ratingClasses: Option<seq<string>>)

  /** What the scraper reads from an HTML page: the class list of `<body>`
      (`None` when it has no class attribute), the text of the `<a>` inside
      each `li.paginate-page` (`None` when there is no anchor), and the poster
      entries in document order. */
  datatype Page = Page(bodyClasses: Option<seq<string>>, paginateLinks: seq<Option<string>>, posters: seq<Poster>)

  /** The site as seen during one run. */
  type Site = Url -> Page

  // ============================================================ page count

  /** The number in the last pagination link, commas removed; 1 when there is
      no pagination (the caught IndexError). */
  function LastPageNumber(links: seq<Option<string>>): (r: Result<int>)
    ensures links == [] ==> r == Ok(1)
    ensures links != [] && Last(links).None? ==> r == Err(AttributeError)
    ensures links != [] && Last(links).Some? ==>
      r == (match ParseInt(RemoveChar(Last(links).value, ',')) case Some(n) => Ok(n) case None => Err(ValueError))
  {
    if links == [] then Ok(1)
    else match Last(links)
      case None => Err(AttributeError)
      case Some(text) =>
        match ParseInt(RemoveChar(text, ','))
        case Some(n) => Ok(n)
        case None => Err(ValueError)
  }

  /** `get_page_count`: -1 for a profile page whose body is marked `error`,
      otherwise the last page number. */
  function PageCount(page: Page): (r: Result<int>)
    ensures page.bodyClasses.None? ==> r == Err(KeyError)
    ensures page.bodyClasses.Some? && "error" in page.bodyClasses.value ==> r == Ok(-1)
    ensures page.bodyClasses.Some? && "error" !in page.bodyClasses.value ==> r == LastPageNumber(page.paginateLinks)
  {
    match page.bodyClasses
    case None => Err(KeyError)
    case Some(classes) => if "error" in classes then Ok(-1) else LastPageNumber(page.paginateLinks)
  }

  /** The page count reads back the number the site renders in its last
      pagination link, for a profile that is not marked as an error page. */
  lemma PageCountReadsRenderedNumber(classes: seq<string>, links: seq<Option<string>>, n: nat, posters: seq<Poster>)
    requires "error" !in classes
    ensures PageCount(Page(Some(classes), links + [Some(NatToString(n))], posters)) == Ok(n)
  {
    var s := NatToString(n);
    assert ',' !in s by { assert IsDigits(s); }
    DigitsValueOfNatToString(n);
    assert Last(links + [Some(s)]) == Some(s);
  }

  /** A page number the site groups with a comma (`1,234`) reads back as
      the digits on both sides of it. */
  lemma PageCountReadsGroupedNumber(classes: seq<string>, links: seq<Option<string>>, a: string, b: string, posters: seq<Poster>)
    requires "error" !in classes && IsDigits(a) && IsDigits(b)
    ensures PageCount(Page(Some(classes), links + [Some(a + "," + b)], posters)) == Ok(DigitsValue(a + b) as int)
  {
    assert ',' !in a && ',' !in b;
    RemoveGroupingComma(a, b);
    assert IsDigits(a + b) by {
      forall k | 0 <= k < |a + b| ensures IsDigit((a + b)[k]) {
        if k < |a| { assert (a + b)[k] == a[k]; } else { assert (a + b)[k] == b[k - |a|]; }
      }
    }
    assert Last(links + [Some(a + "," + b)]) == Some(a + "," + b);
  }

  /** `get_page_counts` after the fetch: each profile's `/films/` page is
      parsed in turn (with no `error` check) and its count is written to the
      first user with that handle. An exception stops the loop; earlier
      writes stay. */
  function StorePageCounts(users: seq<User>, site: Site, lbIds: seq<string>): (seq<User>, Result<()>)
    decreases |lbIds|
  {
    if lbIds == [] then (users, Ok(()))
    else match LastPageNumber(site(FilmsUrl(lbIds[0])).paginateLinks)
      case Err(e) => (users, Err(e))
      case Ok(n) => StorePageCounts(SetPageCount(users, lbIds[0], n), site, lbIds[1..])
  }

  /** After a successful count, every listed handle that has a user document
      carries the page count of its own `/films/` page. */
  lemma {:induction false} StoredPageCountIsParsed(users: seq<User>, site: Site, lbIds: seq<string>, k: nat)
    requires StorePageCounts(users, site, lbIds).1.Ok?
    requires k < |lbIds| && FindUserByHandle(users, lbIds[k]).Some?
    ensures LastPageNumber(site(FilmsUrl(lbIds[k])).paginateLinks).Ok?
    ensures var u := FindUserByHandle(StorePageCounts(users, site, lbIds).0, lbIds[k]);
      u.Some? && u.value.numRatingsPages == Some(LastPageNumber(site(FilmsUrl(lbIds[k])).paginateLinks).value)
    decreases |lbIds|, 1
  {
    if k > 0 {
      var n := LastPageNumber(site(FilmsUrl(lbIds[0])).paginateLinks).value;
      assert lbIds[1..][k - 1] == lbIds[k];
      SetPageCountKeepsUsers(users, lbIds[0], n, lbIds[k]);
      StoredPageCountIsParsed(SetPageCount(users, lbIds[0], n), site, lbIds[1..], k - 1);
    } else {
      StoredPageCountOfHead(users, site, lbIds);
    }
  }

  /** The first listed handle: its count is written now, and a later
      occurrence of the same handle writes it again from the same page. */
  lemma {:induction false} StoredPageCountOfHead(users: seq<User>, site: Site, lbIds: seq<string>)
    requires StorePageCounts(users, site, lbIds).1.Ok?
    requires lbIds != [] && FindUserByHandle(users, lbIds[0]).Some?
    ensures LastPageNumber(site(FilmsUrl(lbIds[0])).paginateLinks).Ok?
    ensures var u := FindUserByHandle(StorePageCounts(users, site, lbIds).0, lbIds[0]);
      u.Some? && u.value.numRatingsPages == Some(LastPageNumber(site(FilmsUrl(lbIds[0])).paginateLinks).value)
    decreases |lbIds|, 0
  {
    var n := LastPageNumber(site(FilmsUrl(lbIds[0])).paginateLinks).value;
    var next := SetPageCount(users, lbIds[0], n);
    if lbIds[0] in lbIds[1..] {
      var j :| 0 <= j < |lbIds| - 1 && lbIds[1..][j] == lbIds[0];
      SetPageCountKeepsUsers(users, lbIds[0], n, lbIds[0]);
      StoredPageCountIsParsed(next, site, lbIds[1..], j);
    } else {
      StoreOthersUnchanged(next, site, lbIds[1..], lbIds[0]);
    }
  }

  lemma SetPageCountKeepsUsers(users: seq<User>, lbId: string, n: int, h: string)
    ensures FindUserByHandle(SetPageCount(users, lbId, n), h).Some? <==> FindUserByHandle(users, h).Some?
    ensures h != lbId ==> FindUserByHandle(SetPageCount(users, lbId, n), h) == FindUserByHandle(users, h)
  {
    if users != [] && users[0].lbId != lbId {
      SetPageCountKeepsUsers(users[1..], lbId, n, h);
    }
  }

  lemma {:induction false} StoreOthersUnchanged(users: seq<User>, site: Site, lbIds: seq<string>, h: string)
    requires h !in lbIds
    ensures FindUserByHandle(StorePageCounts(users, site, lbIds).0, h) == FindUserByHandle(users, h)
    decreases |lbIds|
  {
    if lbIds != [] {
      match LastPageNumber(site(FilmsUrl(lbIds[0])).paginateLinks)
      case Err(_) =>
      case Ok(n) =>
        SetPageCountKeepsUsers(users, lbIds[0], n, h);
        StoreOthersUnchanged(SetPageCount(users, lbIds[0], n), site, lbIds[1..], h);
    }
  }

  method GetPageCounts(db: Database, site: Site, lbIds: seq<string>) returns (r: Result<()>)
    modifies db
    ensures (db.users, r) == StorePageCounts(old(db.users), site, lbIds)
    ensures db.ratings == old(db.ratings) && db.films == old(db.films)
  {
    for i := 0 to |lbIds|
      invariant StorePageCounts(old(db.users), site, lbIds) == StorePageCounts(db.users, site, lbIds[i..])
      invariant db.ratings == old(db.ratings) && db.films == old(db.films)
    {
      assert lbIds[i..][1..] == lbIds[i + 1..];
      var numPages := LastPageNumber(site(FilmsUrl(lbIds[i])).paginateLinks);
      if numPages.Err? {
        return Err(numPages.error);
      }
      db.users := SetPageCount(db.users, lbIds[i], numPages.value);
    }
    r := Ok(());
  }

  // ============================================================ extraction

  /** The owners whose tiers are stored multiplied by 1.25. */
  const ScaledOwners: seq<string> := ["hizv", "ketchupin"]

  /** `int(classes[-1].split('-')[-1])`: the tier encoded in the last class of
      the rating span, e.g. `rated-7` gives 7. */
  function RatingTier(classes: seq<string>): (r: Result<int>)
    ensures r.Ok? ==> r.value >= 0
    ensures r == Err(IndexError) <==> classes == []
  {
    if classes == [] then Err(IndexError)
    else
      var digits := Last(Split(Last(classes), '-'));
      match ParseInt(digits)
      case Some(t) => Ok(t)
      case None => Err(ValueError)
  }

  /** A last class `rated-<n>` gives the tier `n`, whatever classes come
      before it. */
  lemma TierRoundTrip(cs: seq<string>, n: nat)
    ensures RatingTier(cs + ["rated-" + NatToString(n)]) == Ok(n)
  {
    var digits := NatToString(n);
    assert "rated-" + digits == "rated" + ['-'] + digits;
    SplitAround("rated", '-', digits);
    SplitNone(digits, '-');
    DigitsValueOfNatToString(n);
  }

  /** The value stored for tier `t` scraped from `owner`'s page. */
  function StoredValue(owner: string, t: int): real {
    if owner in ScaledOwners then t as real * 1.25 else t as real
  }

  /** One poster entry: at most one record, or the exception the entry
      raises. The slug is read before the rating span is looked at. */
  function ExtractPoster(p: Poster, owner: string, returnUnrated: bool): Result<Option<Rating>> {
    match p.targetLink
    case None => Err(TypeError)
    case Some(link) =>
      match LinkSlug(link)
      case Err(e) => Err(e)
      case Ok(movieId) =>
        match p.ratingClasses
        case None => if returnUnrated then Ok(Some(Rating(movieId, Unrated, owner))) else Ok(None)
        case Some(classes) =>
          match RatingTier(classes)
          case Err(e) => Err(e)
          case Ok(t) => Ok(Some(Rating(movieId, StoredValue(owner, t), owner)))
  }

  function OptionToSeq<T>(o: Option<T>): seq<T> {
    match o
    case None => []
    case Some(x) => [x]
  }

  /** Prepends already-produced records to the outcome of the rest. */
  function Prepend(done: seq<Rating>, rest: Result<seq<Rating>>): Result<seq<Rating>> {
    match rest
    case Err(e) => Err(e)
    case Ok(rs) => Ok(done + rs)
  }

  lemma PrependNothing(rest: Result<seq<Rating>>)
    ensures Prepend([], rest) == rest
  {
    if rest.Ok? {
      assert [] + rest.value == rest.value;
    }
  }

  /** The records of a page, in poster order; the first failing entry's
      exception otherwise. */
  function ExtractPage(posters: seq<Poster>, owner: string, returnUnrated: bool): Result<seq<Rating>>
    decreases |posters|
  {
    if posters == [] then Ok([])
    else match ExtractPoster(posters[0], owner, returnUnrated)
      case Err(e) => Err(e)
      case Ok(o) => Prepend(OptionToSeq(o), ExtractPage(posters[1..], owner, returnUnrated))
  }

  /** A record from a poster: tagged with the page's owner, its slug taken
      from the link, and its value the sentinel exactly when the entry had no
      rating span; a rated value is the tier, times 1.25 for the scaled
      owners, and the sentinel is never scaled. */
  lemma ExtractPosterRecord(p: Poster, owner: string, returnUnrated: bool)
    requires ExtractPoster(p, owner, returnUnrated).Ok?
    ensures p.targetLink.Some? && LinkSlug(p.targetLink.value).Ok?
    ensures ExtractPoster(p, owner, returnUnrated).value.None? <==> p.ratingClasses.None? && !returnUnrated
    ensures var o := ExtractPoster(p, owner, returnUnrated).value;
      o.Some? ==>
        && o.value.lbId == owner
        && o.value.movieId == LinkSlug(p.targetLink.value).value
        && (o.value.ratingId == Unrated <==> p.ratingClasses.None?)
        && (p.ratingClasses.Some? ==>
              && RatingTier(p.ratingClasses.value).Ok?
              && o.value.ratingId == StoredValue(owner, RatingTier(p.ratingClasses.value).value)
              && o.value.ratingId >= 0.0)
  {
  }

  /** The records of a page: all owned by the page's owner, at most one per
      entry and exactly one per entry when unrated entries are requested,
      and never the sentinel when they are not. */
  lemma {:induction false} ExtractPageRecords(posters: seq<Poster>, owner: string, returnUnrated: bool)
    requires ExtractPage(posters, owner, returnUnrated).Ok?
    ensures var rs := ExtractPage(posters, owner, returnUnrated).value;
      && |rs| <= |posters|
      && (returnUnrated ==> |rs| == |posters|)
      && (forall k :: 0 <= k < |rs| ==> rs[k].lbId == owner)
      && (!returnUnrated ==> forall k :: 0 <= k < |rs| ==> rs[k].ratingId != Unrated)
    decreases |posters|
  {
    if posters != [] {
      ExtractPosterRecord(posters[0], owner, returnUnrated);
      ExtractPageRecords(posters[1..], owner, returnUnrated);
    }
  }

  /** `generate_ratings_operations`: walks the entries, appending one record
      (an upsert keyed by owner and slug) per kept entry. */
  method GenerateRatingsOperations(page: Page, owner: string, returnUnrated: bool) returns (r: Result<seq<Rating>>)
    ensures r == ExtractPage(page.posters, owner, returnUnrated)
  {
    var reviews := page.posters;
    var operations: seq<Rating> := [];
    assert reviews[0..] == reviews;
    PrependNothing(ExtractPage(reviews, owner, returnUnrated));
    for i := 0 to |reviews|
      invariant ExtractPage(reviews, owner, returnUnrated) == Prepend(operations, ExtractPage(reviews[i..], owner, returnUnrated))
    {
      assert reviews[i..][1..] == reviews[i + 1..];
      assert reviews[i..][0] == reviews[i];
      var record := ExtractPoster(reviews[i], owner, returnUnrated);
      if record.Err? {
        return Err(record.error);
      }
      match ExtractPage(reviews[i + 1..], owner, returnUnrated) {
        case Err(_) =>
        case Ok(rest) => assert operations + (OptionToSeq(record.value) + rest) == operations + OptionToSeq(record.value) + rest;
      }
      operations := operations + OptionToSeq(record.value);
    }
    assert reviews[|reviews|..] == [];
    assert operations + [] == operations;
    r := Ok(operations);
  }

  // ======================================================= one user's sync

  /** The pages `get_user_ratings` requests: 1 to `n`, none when `n` <= 0. */
  function PageUrls(lbId: string, n: int): seq<Url> {
    seq(if n > 0 then n else 0, k => RatingsPageUrl(lbId, k + 1))
  }

  /** `if not num_pages`: no count, or a count of 0, falls back to the count
      cached on the user's document. */
  function ResolvePageCount(users: seq<User>, lbId: string, numPages: Option<int>): (r: Result<int>)
    ensures numPages.Some? && numPages.value != 0 ==> r == Ok(numPages.value)
    ensures (numPages.None? || numPages == Some(0)) && FindUserByHandle(users, lbId).None? ==> r == Err(TypeError)
    ensures (numPages.None? || numPages == Some(0)) && FindUserByHandle(users, lbId).Some? ==>
      r == (match FindUserByHandle(users, lbId).value.numRatingsPages case Some(n) => Ok(n) case None => Err(KeyError))
  {
    if numPages.Some? && numPages.value != 0 then Ok(numPages.value)
    else match FindUserByHandle(users, lbId)
      case None => Err(TypeError)
      case Some(u) =>
        match u.numRatingsPages
        case None => Err(KeyError)
        case Some(n) => Ok(n)
  }

  /** The records of the given pages, concatenated in request order. */
  function PagesRecords(site: Site, urls: seq<Url>, owner: string, returnUnrated: bool): Result<seq<Rating>>
    decreases |urls|
  {
    if urls == [] then Ok([])
    else match ExtractPage(site(urls[0]).posters, owner, returnUnrated)
      case Err(e) => Err(e)
      case Ok(rs) => Prepend(rs, PagesRecords(site, urls[1..], owner, returnUnrated))
  }

  /** What `get_user_ratings` extracts for one profile. */
  function UserRecords(users: seq<User>, site: Site, lbId: string, numPages: Option<int>, returnUnrated: bool): Result<seq<Rating>> {
    match ResolvePageCount(users, lbId, numPages)
    case Err(e) => Err(e)
    case Ok(n) => PagesRecords(site, PageUrls(lbId, n), lbId, returnUnrated)
  }

  /** A profile marked unavailable (-1 pages) is never fetched and yields no
      records; a positive count requests exactly pages 1 to n. */
  lemma PagesRequested(users: seq<User>, site: Site, lbId: string, n: int, returnUnrated: bool)
    requires n != 0
    ensures n < 0 ==> UserRecords(users, site, lbId, Some(n), returnUnrated) == Ok([])
    ensures n > 0 ==> |PageUrls(lbId, n)| == n && forall k :: 0 <= k < n ==> PageUrls(lbId, n)[k] == RatingsPageUrl(lbId, k + 1)
  {
  }

  /** The request loop of `get_user_ratings`: pages 1 to `n` in order. */
  method PageRequests(lbId: string, n: int) returns (urls: seq<Url>)
    ensures urls == PageUrls(lbId, n)
  {
    urls := [];
    for i := 0 to (if n > 0 then n else 0)
      invariant urls == PageUrls(lbId, i)
    {
      urls := urls + [RatingsPageUrl(lbId, i + 1)];
    }
  }

  /** The parse-and-concatenate loops of `get_user_ratings`: each response's
      records appended in request order. */
  method CollectRecords(site: Site, urls: seq<Url>, lbId: string, returnUnrated: bool) returns (r: Result<seq<Rating>>)
    ensures r == PagesRecords(site, urls, lbId, returnUnrated)
  {
    var upsertOperations: seq<Rating> := [];
    assert urls[0..] == urls;
    PrependNothing(PagesRecords(site, urls, lbId, returnUnrated));
    for i := 0 to |urls|
      invariant PagesRecords(site, urls, lbId, returnUnrated) == Prepend(upsertOperations, PagesRecords(site, urls[i..], lbId, returnUnrated))
    {
      assert urls[i..][1..] == urls[i + 1..];
      assert urls[i..][0] == urls[i];
      var response := GenerateRatingsOperations(site(urls[i]), lbId, returnUnrated);
      if response.Err? {
        return Err(response.error);
      }
      match PagesRecords(site, urls[i + 1..], lbId, returnUnrated) {
        case Err(_) =>
        case Ok(rest) => assert upsertOperations + (response.value + rest) == upsertOperations + response.value + rest;
      }
      upsertOperations := upsertOperations + response.value;
    }
    assert urls[|urls|..] == [];
    assert upsertOperations + [] == upsertOperations;
    r := Ok(upsertOperations);
  }

  /** `get_user_ratings`: request the pages, extract each, concatenate in page
      order and, when storing, bulk-upsert the records. Any exception leaves
      the store as it was. (When storing, the Python function returns None;
      the records are returned here in both cases.) */
  method GetUserRatings(db: Database, site: Site, lbId: string, numPages: Option<int>, storeInDb: bool, returnUnrated: bool)
    returns (r: Result<seq<Rating>>)
    modifies db
    ensures r == UserRecords(old(db.users), site, lbId, numPages, returnUnrated)
    ensures db.ratings == if r.Ok? && storeInDb then UpsertAll(old(db.ratings), r.value) else old(db.ratings)
    ensures db.users == old(db.users) && db.films == old(db.films)
  {
    var n := ResolvePageCount(db.users, lbId, numPages);
    if n.Err? {
      return Err(n.error);
    }
    var urls := PageRequests(lbId, n.value);
    var records := CollectRecords(site, urls, lbId, returnUnrated);
    if records.Err? {
      return records;
    }
    var upsertOperations := records.value;
    if storeInDb && |upsertOperations| > 0 {
      db.ratings := UpsertAll(db.ratings, upsertOperations);
    }
    r := Ok(upsertOperations);
  }

  /** `get_ratings`: every profile in turn, unrated entries included, page
      counts from the user documents. The first exception stops the run;
      profiles already processed stay written. */
  function SyncRatings(ratings: seq<Rating>, users: seq<User>, site: Site, lbIds: seq<string>): (seq<Rating>, Result<()>)
    decreases |lbIds|
  {
    if lbIds == [] then (ratings, Ok(()))
    else match UserRecords(users, site, lbIds[0], None, true)
      case Err(e) => (ratings, Err(e))
      case Ok(rs) => SyncRatings(UpsertAll(ratings, rs), users, site, lbIds[1..])
  }

  method GetRatings(db: Database, site: Site, lbIds: seq<string>) returns (r: Result<()>)
    modifies db
    ensures (db.ratings, r) == SyncRatings(old(db.ratings), old(db.users), site, lbIds)
    ensures db.users == old(db.users) && db.films == old(db.films)
  {
    for i := 0 to |lbIds|
      invariant SyncRatings(old(db.ratings), old(db.users), site, lbIds) == SyncRatings(db.ratings, db.users, site, lbIds[i..])
      invariant db.users == old(db.users) && db.films == old(db.films)
    {
      assert lbIds[i..][1..] == lbIds[i + 1..];
      var res := GetUserRatings(db, site, lbIds[i], None, true, true);
      if res.Err? {
        return Err(res.error);
      }
    }
    r := Ok(());
  }

  // ============================================================= aggregates

  predicate Rated(ratings: seq<Rating>, movieId: string) {
    exists i :: 0 <= i < |ratings| && ratings[i].movieId == movieId
  }

  lemma RatedCons(ratings: seq<Rating>, m: string)
    requires ratings != []
    ensures Rated(ratings, m) <==> ratings[0].movieId == m || Rated(ratings[1..], m)
  {
    if Rated(ratings[1..], m) {
      var i :| 0 <= i < |ratings[1..]| && ratings[1..][i].movieId == m;
      assert ratings[i + 1].movieId == m;
    }
    if Rated(ratings, m) && ratings[0].movieId != m {
      var i :| 0 <= i < |ratings| && ratings[i].movieId == m;
      assert ratings[1..][i - 1].movieId == m;
    }
  }

  /** `ratings.distinct('movie_id')`: each film once, at its last appearance
      (the order `distinct` returns is not part of the model). */
  function DistinctMovies(docs: seq<Rating>): (ms: seq<string>)
    ensures forall i, j :: 0 <= i < j < |ms| ==> ms[i] != ms[j]
    decreases |docs|
  {
    if docs == [] then []
    else
      var rest := DistinctMovies(docs[1..]);
      if docs[0].movieId in rest then rest else [docs[0].movieId] + rest
  }

  /** Every film with a rating row is listed once by `distinct`, and nothing
      else is. */
  lemma {:induction false} DistinctMoviesOf(docs: seq<Rating>, m: string)
    ensures m in DistinctMovies(docs) <==> Rated(docs, m)
    decreases |docs|
  {
    if docs != [] {
      DistinctMoviesOf(docs[1..], m);
      RatedCons(docs, m);
    }
  }

  /** The statistics of one film as the recompute loop accumulates them. */
  method Tally(ratings: seq<Rating>, movieId: string) returns (total: real, rCount: nat, urCount: nat)
    ensures rCount == RatedCount(RowValues(ratings, movieId))
    ensures urCount == UnratedCount(RowValues(ratings, movieId))
    ensures total == RatedTotal(RowValues(ratings, movieId))
  {
    total, rCount, urCount := 0.0, 0, 0;
    for i := 0 to |ratings|
      invariant total + RatedTotal(RowValues(ratings[i..], movieId)) == RatedTotal(RowValues(ratings, movieId))
      invariant rCount + RatedCount(RowValues(ratings[i..], movieId)) == RatedCount(RowValues(ratings, movieId))
      invariant urCount + UnratedCount(RowValues(ratings[i..], movieId)) == UnratedCount(RowValues(ratings, movieId))
    {
      assert ratings[i..][1..] == ratings[i + 1..];
      var rest := RowValues(ratings[i + 1..], movieId);
      if ratings[i].movieId == movieId {
        assert RowValues(ratings[i..], movieId) == [ratings[i].ratingId] + rest;
        assert ([ratings[i].ratingId] + rest)[1..] == rest;
      } else {
        assert RowValues(ratings[i..], movieId) == rest;
      }
      if ratings[i].movieId == movieId {
        var ratingId := ratings[i].ratingId;
        if ratingId != Unrated {
          total := total + ratingId;
          rCount := rCount + 1;
        } else {
          urCount := urCount + 1;
        }
      }
    }
    assert ratings[|ratings|..] == [];
  }

  /** The upsert of every listed film's statistics, each computed from the
      current rating rows only (never from the stored statistics). */
  function RecomputeAll(films: seq<Film>, ratings: seq<Rating>, movies: seq<string>): seq<Film>
    decreases |movies|
  {
    if movies == [] then films
    else RecomputeAll(UpsertFilm(films, movies[0], AggregateSet(AggregateOf(RowValues(ratings, movies[0])))), ratings, movies[1..])
  }

  /** A film whose stored statistics are those of `a` and whose other fields
      are those of `before` (or unset when it had no document). */
  predicate Recomputed(films: seq<Film>, movieId: string, a: Aggregate, before: Option<Film>) {
    FindFilm(films, movieId) ==
      Some(ApplySet(match before case Some(f) => f case None => BlankFilm(movieId), AggregateSet(a)))
  }

  /** Recomputing a list of distinct films gives each of them the aggregate
      of its current rows, keeps its other fields, and leaves every other
      film document as it was. */
  lemma {:induction false} RecomputeAllConsistent(films: seq<Film>, ratings: seq<Rating>, movies: seq<string>, m: string)
    requires forall i, j :: 0 <= i < j < |movies| ==> movies[i] != movies[j]
    ensures m in movies ==> Recomputed(RecomputeAll(films, ratings, movies), m, AggregateOf(RowValues(ratings, m)), FindFilm(films, m))
    ensures m !in movies ==> FindFilm(RecomputeAll(films, ratings, movies), m) == FindFilm(films, m)
    decreases |movies|
  {
    if movies != [] {
      var next := UpsertFilm(films, movies[0], AggregateSet(AggregateOf(RowValues(ratings, movies[0]))));
      RecomputeAllConsistent(next, ratings, movies[1..], m);
      if m == movies[0] {
        assert m !in movies[1..] by {
          forall k | 0 <= k < |movies| - 1 ensures movies[1..][k] != m { assert movies[1..][k] == movies[k + 1]; }
        }
      }
    }
  }

  lemma RecomputeStep(films: seq<Film>, ratings: seq<Rating>, movies: seq<string>)
    requires movies != []
    ensures RecomputeAll(films, ratings, movies)
      == RecomputeAll(UpsertFilm(films, movies[0], AggregateSet(AggregateOf(RowValues(ratings, movies[0])))), ratings, movies[1..])
  {
  }

  /** The recompute loop of `main`, over the given films. */
  method RecomputeFor(db: Database, movies: seq<string>)
    modifies db
    ensures db.films == RecomputeAll(old(db.films), db.ratings, movies)
    ensures db.users == old(db.users) && db.ratings == old(db.ratings)
  {
    for i := 0 to |movies|
      invariant RecomputeAll(old(db.films), db.ratings, movies) == RecomputeAll(db.films, db.ratings, movies[i..])
      invariant db.users == old(db.users) && db.ratings == old(db.ratings)
    {
      assert movies[i..][1..] == movies[i + 1..];
      var movieId := movies[i];
      var total, rCount, urCount := Tally(db.ratings, movieId);
      var avg := if rCount > 0 then total / rCount as real else 0.0;
      var film := FilmSet(None, None, None, None, Some(avg), Some(rCount as int), Some((rCount + urCount) as int));
      TalliedAggregate(db.ratings, movieId, total, rCount, urCount);
      RecomputeStep(db.films, db.ratings, movies[i..]);
      db.films := UpsertFilm(db.films, movieId, film);
    }
    assert movies[|movies|..] == [];
  }

  /** `main` without a member id: count every followed profile's pages, sync
      every profile with unrated entries, then rebuild the statistics of every
      film that has a rating row. */
  /** `[x['lb_id'] for x in users.find({})]`. */
  function Handles(users: seq<User>): (hs: seq<string>)
    ensures |hs| == |users| && forall k :: 0 <= k < |users| ==> hs[k] == users[k].lbId
  {
    seq(|users|, k requires 0 <= k < |users| => users[k].lbId)
  }

  method FullSync(db: Database, site: Site) returns (r: Result<()>)
    modifies db
    ensures var counted := StorePageCounts(old(db.users), site, Handles(old(db.users)));
      && db.users == counted.0
      && (counted.1.Err? ==> r == counted.1 && db.ratings == old(db.ratings))
      && (counted.1.Ok? ==> (db.ratings, r) == SyncRatings(old(db.ratings), counted.0, site, Handles(old(db.users))))
    ensures r.Ok? ==> forall m :: Rated(db.ratings, m) ==>
      Recomputed(db.films, m, AggregateOf(RowValues(db.ratings, m)), FindFilm(old(db.films), m))
    ensures r.Ok? ==> forall m :: !Rated(db.ratings, m) ==> FindFilm(db.films, m) == FindFilm(old(db.films), m)
    ensures r.Err? ==> db.films == old(db.films)
  {
    var allLbIds := Handles(db.users);
    r := GetPageCounts(db, site, allLbIds);
    if r.Err? {
      return;
    }
    r := GetRatings(db, site, allLbIds);
    if r.Err? {
      return;
    }
    var movies := DistinctMovies(db.ratings);
    RecomputeFor(db, movies);
    forall m ensures Rated(db.ratings, m) ==> Recomputed(db.films, m, AggregateOf(RowValues(db.ratings, m)), FindFilm(old(db.films), m))
      ensures !Rated(db.ratings, m) ==> FindFilm(db.films, m) == FindFilm(old(db.films), m)
    {
      DistinctMoviesOf(db.ratings, m);
      RecomputeAllConsistent(old(db.films), db.ratings, movies, m);
    }
  }

  /** `main` with a member id, as written: the first user with that id is
      re-counted fresh (the `error` check included) and synced without
      unrated entries. Its recompute loop iterates over rating documents
      carrying the member id, a field rating documents never have, so no
      film document is written. */
  method IncrementalSync(db: Database, site: Site, uid: int) returns (r: Result<()>)
    modifies db
    ensures db.films == old(db.films) && db.users == old(db.users)
    ensures var user := FindUserByUid(old(db.users), uid);
      && (user.Err? ==> r == Err(IndexError) && db.ratings == old(db.ratings))
      && (user.Ok? && PageCount(site(ByDateUrl(user.value.lbId))).Err? ==> r.Err? && db.ratings == old(db.ratings))
      && (user.Ok? && PageCount(site(ByDateUrl(user.value.lbId))).Ok? ==>
            var recs := UserRecords(old(db.users), site, user.value.lbId, Some(PageCount(site(ByDateUrl(user.value.lbId))).value), false);
            (r.Ok? <==> recs.Ok?) && db.ratings == if recs.Ok? then UpsertAll(old(db.ratings), recs.value) else old(db.ratings))
  {
    var user := FindUserByUid(db.users, uid);
    if user.Err? {
      return Err(user.error);
    }
    var lbId := user.value.lbId;
    var numPages := PageCount(site(ByDateUrl(lbId)));
    if numPages.Err? {
      return Err(numPages.error);
    }
    var res := GetUserRatings(db, site, lbId, Some(numPages.value), true, false);
    if res.Err? {
      return Err(res.error);
    }
    r := Ok(());
  }

  /** The as-written incremental sync leaves a stale aggregate: a member's
      re-scraped rating replaces the row, but the film keeps the average of
      the row it replaced, since `IncrementalSync` leaves `films` as it was. */
  lemma IncrementalSyncLeavesStale()
    ensures var before := [Rating("x", 8.0, "bob")];
      var films := [Film("x", None, None, None, None, Some(8.0), Some(1), Some(1))];
      var after := UpsertAll(before, [Rating("x", 10.0, "bob")]);
      && AggregateOf(RowValues(after, "x")).guildAvg == 10.0
      && FindFilm(films, "x").Some?
      && FindFilm(films, "x").value.guildAvg != Some(AggregateOf(RowValues(after, "x")).guildAvg)
  {
    var after := UpsertAll([Rating("x", 8.0, "bob")], [Rating("x", 10.0, "bob")]);
    assert FirstIndex([Rating("x", 8.0, "bob")], ("bob", "x")) == Some(0);
    assert after == [Rating("x", 10.0, "bob")];
    assert RowValues(after, "x") == [10.0];
    assert [10.0][1..] == [];
    assert RatedCount([10.0]) == 1 && RatedTotal([10.0]) == 10.0;
  }

  /** The member's own rows: `ratings.find({'lb_id': lbId})`. */
  function MemberRows(ratings: seq<Rating>, lbId: string): seq<Rating>
    decreases |ratings|
  {
    if ratings == [] then []
    else (if ratings[0].lbId == lbId then [ratings[0]] else []) + MemberRows(ratings[1..], lbId)
  }

  predicate RatedBy(ratings: seq<Rating>, lbId: string, movieId: string) {
    exists i :: 0 <= i < |ratings| && ratings[i].lbId == lbId && ratings[i].movieId == movieId
  }

  lemma RatedByCons(ratings: seq<Rating>, lbId: string, m: string)
    requires ratings != []
    ensures RatedBy(ratings, lbId, m) <==> (ratings[0].lbId == lbId && ratings[0].movieId == m) || RatedBy(ratings[1..], lbId, m)
  {
    if RatedBy(ratings[1..], lbId, m) {
      var i :| 0 <= i < |ratings[1..]| && ratings[1..][i].lbId == lbId && ratings[1..][i].movieId == m;
      assert ratings[i + 1] == ratings[1..][i];
    }
    if RatedBy(ratings, lbId, m) && !(ratings[0].lbId == lbId && ratings[0].movieId == m) {
      var i :| 0 <= i < |ratings| && ratings[i].lbId == lbId && ratings[i].movieId == m;
      assert ratings[1..][i - 1] == ratings[i];
    }
  }

  lemma {:induction false} MemberRowsOf(ratings: seq<Rating>, lbId: string, m: string)
    ensures RatedBy(ratings, lbId, m) <==> Rated(MemberRows(ratings, lbId), m)
    decreases |ratings|
  {
    if ratings != [] {
      MemberRowsOf(ratings[1..], lbId, m);
      RatedByCons(ratings, lbId, m);
      var rows := MemberRows(ratings, lbId);
      var rest := MemberRows(ratings[1..], lbId);
      if ratings[0].lbId == lbId {
        assert rows == [ratings[0]] + rest;
        assert rows[1..] == rest;
        RatedCons(rows, m);
      } else {
        assert rows == rest;
      }
    }
  }

  /** The incremental sync with the recompute it evidently intends: after the
      upsert, every film the member has a row for gets the aggregate of its
      current rows. */
  method IncrementalSyncRecompute(db: Database, site: Site, uid: int) returns (r: Result<()>)
    modifies db
    ensures db.users == old(db.users)
    ensures r.Err? ==> db.films == old(db.films)
    ensures var user := FindUserByUid(old(db.users), uid);
      && (user.Err? ==> r == Err(IndexError) && db.ratings == old(db.ratings))
      && (user.Ok? && PageCount(site(ByDateUrl(user.value.lbId))).Err? ==> r.Err? && db.ratings == old(db.ratings))
      && (user.Ok? && PageCount(site(ByDateUrl(user.value.lbId))).Ok? ==>
            var recs := UserRecords(old(db.users), site, user.value.lbId, Some(PageCount(site(ByDateUrl(user.value.lbId))).value), false);
            (r.Ok? <==> recs.Ok?) && db.ratings == if recs.Ok? then UpsertAll(old(db.ratings), recs.value) else old(db.ratings))
    ensures r.Ok? ==> FindUserByUid(db.users, uid).Ok?
    ensures r.Ok? ==> forall m :: RatedBy(db.ratings, FindUserByUid(db.users, uid).value.lbId, m) ==>
      Recomputed(db.films, m, AggregateOf(RowValues(db.ratings, m)), FindFilm(old(db.films), m))
    ensures r.Ok? ==> forall m :: !RatedBy(db.ratings, FindUserByUid(db.users, uid).value.lbId, m) ==>
      FindFilm(db.films, m) == FindFilm(old(db.films), m)
  {
    r := IncrementalSync(db, site, uid);
    if r.Err? {
      return;
    }
    var lbId := FindUserByUid(db.users, uid).value.lbId;
    var movies := DistinctMovies(MemberRows(db.ratings, lbId));
    RecomputeFor(db, movies);
    forall m ensures RatedBy(db.ratings, lbId, m) ==> Recomputed(db.films, m, AggregateOf(RowValues(db.ratings, m)), FindFilm(old(db.films), m))
      ensures !RatedBy(db.ratings, lbId, m) ==> FindFilm(db.films, m) == FindFilm(old(db.films), m)
    {
      MemberRowsOf(db.ratings, lbId, m);
      DistinctMoviesOf(MemberRows(db.ratings, lbId), m);
      RecomputeAllConsistent(old(db.films), db.ratings, movies, m);
    }
  }
}
