/** The commands that read the aggregate back: "who knows" (one film's rows,
    which also writes the film document) and the top-films list, in the
    current module `utils/film.py` and in the older `film.py`. */
module FilmQueries {
  import opened Common
  import opened Docs
  import opened FilmInfo

  // ============================================================ who knows

  /** A member's mark on a film: the stored value, or `✓` for the
      watched-but-unrated sentinel. */
  datatype Mark = Stars(value: real) | Watched

  datatype WkLine = WkLine(lbId: string, mark: Mark)

  function MarkOf(v: real): (m: Mark)
    ensures m.Watched? <==> v == Unrated
  {
    if v == Unrated then Watched else Stars(v)
  }

  /** One line per rating row of the film, in store order. */
  function WkLines(ratings: seq<Rating>, movieId: string): seq<WkLine>
    decreases |ratings|
  {
    if ratings == [] then []
    else
      (if ratings[0].movieId == movieId then [WkLine(ratings[0].lbId, MarkOf(ratings[0].ratingId))] else [])
      + WkLines(ratings[1..], movieId)
  }

  function WatchedLines(lines: seq<WkLine>): nat {
    if lines == [] then 0 else (if lines[0].mark.Watched? then 1 else 0) + WatchedLines(lines[1..])
  }

  lemma WatchedLinesAppend(a: seq<WkLine>, b: seq<WkLine>)
    ensures WatchedLines(a + b) == WatchedLines(a) + WatchedLines(b)
  {
    if a != [] {
      assert (a + b)[1..] == a[1..] + b;
      WatchedLinesAppend(a[1..], b);
    } else {
      assert a + b == b;
    }
  }

  /** The list has one line per row of the film (its `watch_count`), and the
      `✓` lines are exactly its unrated rows. */
  lemma {:induction false} WkLinesCount(ratings: seq<Rating>, movieId: string)
    ensures |WkLines(ratings, movieId)| == |RowValues(ratings, movieId)|
    ensures WatchedLines(WkLines(ratings, movieId)) == UnratedCount(RowValues(ratings, movieId))
    decreases |ratings|
  {
    if ratings != [] {
      WkLinesCount(ratings[1..], movieId);
      var rest := WkLines(ratings[1..], movieId);
      var vs := RowValues(ratings[1..], movieId);
      if ratings[0].movieId == movieId {
        var line := WkLine(ratings[0].lbId, MarkOf(ratings[0].ratingId));
        WatchedLinesAppend([line], rest);
        assert [line][1..] == [];
        assert ([ratings[0].ratingId] + vs)[1..] == vs;
      } else {
        assert WkLines(ratings, movieId) == rest;
        assert RowValues(ratings, movieId) == vs;
      }
    }
  }

  /** The loop over the film's rows: its lines and the counters of the
      aggregate. */
  method WhoKnowsRows(ratings: seq<Rating>, movieId: string) returns (lines: seq<WkLine>, total: real, rCount: nat, urCount: nat)
    ensures lines == WkLines(ratings, movieId)
    ensures rCount == RatedCount(RowValues(ratings, movieId))
    ensures urCount == UnratedCount(RowValues(ratings, movieId))
    ensures total == RatedTotal(RowValues(ratings, movieId))
  {
    lines, total, rCount, urCount := [], 0.0, 0, 0;
    assert ratings[0..] == ratings;
    for i := 0 to |ratings|
      invariant lines + WkLines(ratings[i..], movieId) == WkLines(ratings, movieId)
      invariant total + RatedTotal(RowValues(ratings[i..], movieId)) == RatedTotal(RowValues(ratings, movieId))
      invariant rCount + RatedCount(RowValues(ratings[i..], movieId)) == RatedCount(RowValues(ratings, movieId))
      invariant urCount + UnratedCount(RowValues(ratings[i..], movieId)) == UnratedCount(RowValues(ratings, movieId))
    {
      assert ratings[i..][1..] == ratings[i + 1..];
      var rest := RowValues(ratings[i + 1..], movieId);
      var restLines := WkLines(ratings[i + 1..], movieId);
      if ratings[i].movieId == movieId {
        var line := WkLine(ratings[i].lbId, MarkOf(ratings[i].ratingId));
        assert RowValues(ratings[i..], movieId) == [ratings[i].ratingId] + rest;
        assert ([ratings[i].ratingId] + rest)[1..] == rest;
        assert WkLines(ratings[i..], movieId) == [line] + restLines;
        assert lines + ([line] + restLines) == (lines + [line]) + restLines;
        var ratingId := ratings[i].ratingId;
        if ratingId == Unrated {
          urCount := urCount + 1;
        } else {
          total := total + ratingId;
          rCount := rCount + 1;
        }
        lines := lines + [WkLine(ratings[i].lbId, MarkOf(ratingId))];
      } else {
        assert RowValues(ratings[i..], movieId) == rest;
        assert WkLines(ratings[i..], movieId) == restLines;
      }
    }
    assert ratings[|ratings|..] == [];
    assert lines + [] == lines;
  }

  function WhoKnowsTitle(f: FilmDetails): string {
    "Who knows " + f.name + (match f.releaseYear case Some(y) => " (" + IntToString(y) + ")" case None => "")
  }

  /** The result of `who_knows_list`: title, the fields written, the slug
      and the lines. */
  datatype WhoKnows = WhoKnows(title: string, details: FilmSet, movieId: string, lines: seq<WkLine>)

  /** `who_knows_list`: searches the film, lists every member row of it and
      writes the film document with its name, link, year, poster and the
      statistics of its current rows, by the same rule as the full sync.
      No match means no result and no write; an exception means no write. */
  method WhoKnowsList(db: Database, api: SearchApi, keywords: string) returns (r: Result<Option<WhoKnows>>)
    modifies db
    ensures db.users == old(db.users) && db.ratings == old(db.ratings)
    ensures r == Ok(None) <==> GetSearchResult(api, keywords).None?
    ensures r.Err? || r == Ok(None) ==> db.films == old(db.films)
    ensures GetSearchResult(api, keywords).Some? ==>
      var f := GetSearchResult(api, keywords).value;
      (r.Err? <==> MovieIdOfLink(GetLink(f.links)).Err? || PosterUrl(f.posterSizes).Err?)
    ensures r.Ok? && r.value.Some? ==>
      var f := GetSearchResult(api, keywords).value;
      var w := r.value.value;
      var a := AggregateOf(RowValues(db.ratings, w.movieId));
      && w.movieId == MovieIdOfLink(GetLink(f.links)).value
      && w.title == WhoKnowsTitle(f)
      && w.lines == WkLines(db.ratings, w.movieId)
      && w.details == FilmSet(Some(f.name), GetLink(f.links), f.releaseYear, PosterUrl(f.posterSizes).value,
                              Some(a.guildAvg), Some(a.ratingCount as int), Some(a.watchCount as int))
      && db.films == UpsertFilm(old(db.films), w.movieId, w.details)
  {
    var found := GetSearchResult(api, keywords);
    if found.None? {
      return Ok(None);
    }
    var f := found.value;
    var link := GetLink(f.links);
    var movieId := MovieIdOfLink(link);
    if movieId.Err? {
      return Err(movieId.error);
    }
    var lines, total, rCount, urCount := WhoKnowsRows(db.ratings, movieId.value);
    var title := WhoKnowsTitle(f);
    var poster := PosterUrl(f.posterSizes);
    if poster.Err? {
      return Err(poster.error);
    }
    var avg := if rCount > 0 then total / rCount as real else 0.0;
    var details := FilmSet(Some(f.name), link, f.releaseYear, poster.value, Some(avg), Some(rCount as int), Some((rCount + urCount) as int));
    TalliedAggregate(db.ratings, movieId.value, total, rCount, urCount);
    db.films := UpsertFilm(db.films, movieId.value, details);
    r := Ok(Some(WhoKnows(title, details, movieId.value, lines)));
  }

  /** After a who-knows the film document holds the statistics the full
      sync would compute from the same rows, and its `watch_count` counts
      the lines shown. */
  lemma WhoKnowsStatistics(films: seq<Film>, ratings: seq<Rating>, movieId: string, details: FilmSet)
    requires var a := AggregateOf(RowValues(ratings, movieId));
      details.guildAvg == Some(a.guildAvg) && details.ratingCount == Some(a.ratingCount as int) && details.watchCount == Some(a.watchCount as int)
    ensures var g := FindFilm(UpsertFilm(films, movieId, details), movieId);
      var s := FindFilm(UpsertFilm(films, movieId, AggregateSet(AggregateOf(RowValues(ratings, movieId)))), movieId);
      && g.Some? && s.Some?
      && g.value.guildAvg == s.value.guildAvg
      && g.value.ratingCount == s.value.ratingCount
      && g.value.watchCount == s.value.watchCount
      && g.value.watchCount == Some(|WkLines(ratings, movieId)|)
  {
    WkLinesCount(ratings, movieId);
    WatchCountIsRowCount(RowValues(ratings, movieId));
  }

  // ---------------------------------------------- who knows, older module

  datatype WkEmbed = WkEmbed(title: string, url: string, lines: seq<WkLine>, thumbnail: Option<string>, footer: Option<real>)

  /** The older module's footer: any stored document is read for its
      `guild_avg`, which raises `KeyError` when the document has none. */
  function ServerFooter(dbInfo: Option<Film>): (r: Result<Option<real>>)
    ensures r.Err? <==> dbInfo.Some? && dbInfo.value.guildAvg.None?
  {
    match dbInfo
    case None => Ok(None)
    case Some(d) => if d.guildAvg.None? then Err(KeyError) else Ok(Some(d.guildAvg.value))
  }

  /** The footer with the guard `get_description` uses: only a document
      that has a `guild_avg` gives one. */
  function GuardedFooter(dbInfo: Option<Film>): (r: Option<real>)
    ensures r.Some? <==> dbInfo.Some? && dbInfo.value.guildAvg.Some?
    ensures ServerFooter(dbInfo).Ok? ==> r == ServerFooter(dbInfo).value
  {
    match dbInfo
    case None => None
    case Some(d) => d.guildAvg
  }

  /** The older module's `$set`: name, year and poster only. */
  function LegacyDetails(f: FilmDetails, poster: Option<string>): FilmSet {
    FilmSet(Some(f.name), None, f.releaseYear, poster, None, None, None)
  }

  /** `who_knows_embed` once the search has found `f`, as written: the embed
      and the film store after it. */
  function LegacyWhoKnows(films: seq<Film>, ratings: seq<Rating>, f: FilmDetails): (Result<WkEmbed>, seq<Film>) {
    match MovieIdOfLink(GetLink(f.links))
    case Err(e) => (Err(e), films)
    case Ok(movieId) =>
      match PosterUrl(f.posterSizes)
      case Err(e) => (Err(e), films)
      case Ok(poster) =>
        match ServerFooter(FindFilm(films, movieId))
        case Err(e) => (Err(e), films)
        case Ok(footer) =>
          (Ok(WkEmbed(WhoKnowsTitle(f), GetLink(f.links).value, WkLines(ratings, movieId), poster, footer)),
           UpsertFilm(films, movieId, LegacyDetails(f, poster)))
  }

  /** The same with the guarded footer. */
  function LegacyWhoKnowsGuarded(films: seq<Film>, ratings: seq<Rating>, f: FilmDetails): (Result<WkEmbed>, seq<Film>) {
    match MovieIdOfLink(GetLink(f.links))
    case Err(e) => (Err(e), films)
    case Ok(movieId) =>
      match PosterUrl(f.posterSizes)
      case Err(e) => (Err(e), films)
      case Ok(poster) =>
        (Ok(WkEmbed(WhoKnowsTitle(f), GetLink(f.links).value, WkLines(ratings, movieId), poster, GuardedFooter(FindFilm(films, movieId)))),
         UpsertFilm(films, movieId, LegacyDetails(f, poster)))
  }

  /** The older who-knows writes descriptive fields only: every film keeps
      its statistics, and a film it creates has none. */
  lemma LegacyKeepsStatistics(films: seq<Film>, ratings: seq<Rating>, f: FilmDetails, m: string)
    ensures var after := LegacyWhoKnowsGuarded(films, ratings, f).1;
      && (FindFilm(films, m).Some? ==> FindFilm(after, m).Some?)
      && (FindFilm(after, m).Some? ==>
            var before := match FindFilm(films, m) case Some(b) => b case None => BlankFilm(m);
            && FindFilm(after, m).value.guildAvg == before.guildAvg
            && FindFilm(after, m).value.ratingCount == before.ratingCount
            && FindFilm(after, m).value.watchCount == before.watchCount)
    ensures LegacyWhoKnows(films, ratings, f).0.Ok? ==> LegacyWhoKnows(films, ratings, f).1 == LegacyWhoKnowsGuarded(films, ratings, f).1
  {
  }

  /** The guarded version answers whenever the written one does, with the
      same embed, and it never raises `KeyError` on the stored document. */
  lemma GuardedAgrees(films: seq<Film>, ratings: seq<Rating>, f: FilmDetails)
    ensures LegacyWhoKnows(films, ratings, f).0.Ok? ==> LegacyWhoKnows(films, ratings, f) == LegacyWhoKnowsGuarded(films, ratings, f)
    ensures LegacyWhoKnowsGuarded(films, ratings, f).0.Err? <==>
      MovieIdOfLink(GetLink(f.links)).Err? || PosterUrl(f.posterSizes).Err?
  {
  }

  /** Asking the older who-knows twice about a film that has no document
      fails the second time: the first call creates a document without
      `guild_avg`, which the second call then reads. The guarded version
      answers both times. */
  lemma LegacySecondCallFails(films: seq<Film>, ratings: seq<Rating>, f: FilmDetails)
    requires MovieIdOfLink(GetLink(f.links)).Ok? && PosterUrl(f.posterSizes).Ok?
    requires FindFilm(films, MovieIdOfLink(GetLink(f.links)).value).None?
    ensures LegacyWhoKnows(films, ratings, f).0.Ok?
    ensures LegacyWhoKnows(LegacyWhoKnows(films, ratings, f).1, ratings, f).0 == Err(KeyError)
    ensures LegacyWhoKnowsGuarded(LegacyWhoKnowsGuarded(films, ratings, f).1, ratings, f).0.Ok?
  {
    var m := MovieIdOfLink(GetLink(f.links)).value;
    var after := LegacyWhoKnows(films, ratings, f).1;
    assert FindFilm(after, m).Some? && FindFilm(after, m).value.guildAvg.None?;
  }

  /** `who_knows_embed` in `film.py`, as written: the lines are collected
      before the footer is read, and the document is written last. */
  method WhoKnowsEmbed(db: Database, api: SearchApi, keywords: string) returns (r: Result<Option<WkEmbed>>)
    modifies db
    ensures db.users == old(db.users) && db.ratings == old(db.ratings)
    ensures GetSearchResult(api, keywords).None? ==> r == Ok(None) && db.films == old(db.films)
    ensures GetSearchResult(api, keywords).Some? ==>
      var (e, films) := LegacyWhoKnows(old(db.films), db.ratings, GetSearchResult(api, keywords).value);
      && db.films == films
      && r == (match e case Ok(x) => Ok(Some(x)) case Err(err) => Err(err))
  {
    var found := GetSearchResult(api, keywords);
    if found.None? {
      return Ok(None);
    }
    var f := found.value;
    var link := GetLink(f.links);
    var movieId := MovieIdOfLink(link);
    if movieId.Err? {
      return Err(movieId.error);
    }
    var dbInfo := FindFilm(db.films, movieId.value);
    var lines, _, _, _ := WhoKnowsRows(db.ratings, movieId.value);
    var title := WhoKnowsTitle(f);
    var poster := PosterUrl(f.posterSizes);
    if poster.Err? {
      return Err(poster.error);
    }
    var footer := ServerFooter(dbInfo);
    if footer.Err? {
      return Err(footer.error);
    }
    db.films := UpsertFilm(db.films, movieId.value, LegacyDetails(f, poster.value));
    r := Ok(Some(WkEmbed(title, link.value, lines, poster.value, footer.value)));
  }

  /** `who_knows_embed` with the guarded footer. */
  method WhoKnowsEmbedGuarded(db: Database, api: SearchApi, keywords: string) returns (r: Result<Option<WkEmbed>>)
    modifies db
    ensures db.users == old(db.users) && db.ratings == old(db.ratings)
    ensures GetSearchResult(api, keywords).None? ==> r == Ok(None) && db.films == old(db.films)
    ensures GetSearchResult(api, keywords).Some? ==>
      var (e, films) := LegacyWhoKnowsGuarded(old(db.films), db.ratings, GetSearchResult(api, keywords).value);
      && db.films == films
      && r == (match e case Ok(x) => Ok(Some(x)) case Err(err) => Err(err))
  {
    var found := GetSearchResult(api, keywords);
    if found.None? {
      return Ok(None);
    }
    var f := found.value;
    var link := GetLink(f.links);
    var movieId := MovieIdOfLink(link);
    if movieId.Err? {
      return Err(movieId.error);
    }
    var dbInfo := FindFilm(db.films, movieId.value);
    var lines, _, _, _ := WhoKnowsRows(db.ratings, movieId.value);
    var title := WhoKnowsTitle(f);
    var poster := PosterUrl(f.posterSizes);
    if poster.Err? {
      return Err(poster.error);
    }
    var footer := GuardedFooter(dbInfo);
    db.films := UpsertFilm(db.films, movieId.value, LegacyDetails(f, poster.value));
    r := Ok(Some(WkEmbed(title, link.value, lines, poster.value, footer)));
  }

  // =========================================================== top films

  /** The query filter `rating_count > threshold - 1`. */
  predicate Qualifies(f: Film, threshold: int) {
    f.ratingCount.Some? && f.ratingCount.value > threshold - 1
  }

  function Qualifying(films: seq<Film>, threshold: int): (fs: seq<Film>)
    ensures |fs| <= |films|
    decreases |films|
  {
    if films == [] then []
    else (if Qualifies(films[0], threshold) then [films[0]] else []) + Qualifying(films[1..], threshold)
  }

  /** On integer counts the filter keeps exactly the films with at least
      `threshold` ratings, in store order. */
  lemma {:induction false} QualifyingMeans(films: seq<Film>, threshold: int, f: Film)
    ensures f in Qualifying(films, threshold) <==> f in films && f.ratingCount.Some? && f.ratingCount.value >= threshold
    decreases |films|
  {
    if films != [] {
      QualifyingMeans(films[1..], threshold, f);
      assert films == [films[0]] + films[1..];
    }
  }

  /** The descending `guild_avg` order; a film without one sorts last, as a
      missing field does in a descending sort. */
  predicate AtLeast(a: Film, b: Film) {
    b.guildAvg.None? || (a.guildAvg.Some? && a.guildAvg.value >= b.guildAvg.value)
  }

  predicate SortedByAvg(fs: seq<Film>) {
    forall i, j :: 0 <= i < j < |fs| ==> AtLeast(fs[i], fs[j])
  }

  function Insert(x: Film, s: seq<Film>): (r: seq<Film>)
    requires SortedByAvg(s)
    ensures SortedByAvg(r)
    ensures multiset(r) == multiset(s) + multiset{x}
    ensures forall k :: 0 <= k < |r| ==> r[k] == x || r[k] in s
    decreases |s|
  {
    if s == [] then [x]
    else if AtLeast(x, s[0]) then [x] + s
    else
      var rest := Insert(x, s[1..]);
      assert s == [s[0]] + s[1..];
      LeadsSorted(s[0], x, s[1..], rest);
      [s[0]] + rest
  }

  /** A film ahead of both the inserted film and the rest of a sorted list
      stays sorted in front of the insertion. */
  lemma LeadsSorted(a: Film, x: Film, tail: seq<Film>, rest: seq<Film>)
    requires SortedByAvg([a] + tail) && !AtLeast(x, a)
    requires SortedByAvg(rest) && forall k :: 0 <= k < |rest| ==> rest[k] == x || rest[k] in tail
    ensures SortedByAvg([a] + rest)
  {
    forall k | 0 <= k < |rest|
      ensures AtLeast(a, rest[k])
    {
      if rest[k] != x {
        var j :| 0 <= j < |tail| && tail[j] == rest[k];
        var whole := [a] + tail;
        assert whole[0] == a && whole[j + 1] == tail[j];
        assert AtLeast(whole[0], whole[j + 1]);
      }
    }
    var r := [a] + rest;
    forall i, j | 0 <= i < j < |r|
      ensures AtLeast(r[i], r[j])
    {
      if i > 0 {
        assert r[i] == rest[i - 1] && r[j] == rest[j - 1];
      } else {
        assert r[j] == rest[j - 1];
      }
    }
  }

  /** The store's films in descending `guild_avg`, ties in store order. */
  function SortByAvg(s: seq<Film>): (r: seq<Film>)
    ensures SortedByAvg(r)
    ensures multiset(r) == multiset(s)
    decreases |s|
  {
    if s == [] then []
    else
      assert s == [s[0]] + s[1..];
      Insert(s[0], SortByAvg(s[1..]))
  }

  /** At most 200 films are listed. */
  const MaxTopFilms: nat := 200

  function Take(fs: seq<Film>, n: nat): seq<Film> {
    if |fs| <= n then fs else fs[..n]
  }

  /** A top-list line: the label shown, the slug the link points to, the
      average and the count. */
  datatype TopLine = TopLine(caption: string, target: string, avg: real, count: int)

  /** `[r.capitalize() for r in parts if not r.isdigit()]`. */
  function SlugWords(parts: seq<string>): (ws: seq<string>)
    ensures |ws| <= |parts|
    decreases |parts|
  {
    if parts == [] then []
    else (if IsDigits(parts[0]) then [] else [Capitalize(parts[0])]) + SlugWords(parts[1..])
  }

  /** The title made from a slug: segments split on `-`, all-digit segments
      (a disambiguating year) dropped, each capitalised, joined with spaces. */
  function SlugTitle(movieId: string): string {
    Join(SlugWords(Split(movieId, '-')), " ")
  }

  lemma CapitalizeKeeps(s: string, c: char)
    requires c == '-' || c == ' '
    ensures c in Capitalize(s) <==> c in s
  {
    var r := Capitalize(s);
    if c in r {
      var k :| 0 <= k < |r| && r[k] == c;
      CaseKeepsPunctuation(s[k]);
    }
    if c in s {
      var k :| 0 <= k < |s| && s[k] == c;
      CaseKeepsPunctuation(s[k]);
    }
  }

  lemma {:induction false} SlugWordsWithout(parts: seq<string>, c: char)
    requires c == '-' || c == ' '
    requires forall k :: 0 <= k < |parts| ==> c !in parts[k]
    ensures forall k :: 0 <= k < |SlugWords(parts)| ==> c !in SlugWords(parts)[k]
    decreases |parts|
  {
    if parts != [] {
      SlugWordsWithout(parts[1..], c);
      CapitalizeKeeps(parts[0], c);
    }
  }

  lemma {:induction false} JoinWithout(parts: seq<string>, sep: string, c: char)
    requires c !in sep
    requires forall k :: 0 <= k < |parts| ==> c !in parts[k]
    ensures c !in Join(parts, sep)
    decreases |parts|
  {
    if |parts| > 1 {
      JoinWithout(parts[1..], sep, c);
    }
  }

  /** A title made from a slug has no `-` left, and when the slug has no
      spaces its words are exactly the capitalised non-numeric segments. */
  lemma SlugTitleWords(movieId: string)
    ensures '-' !in SlugTitle(movieId)
    ensures ' ' !in movieId && SlugWords(Split(movieId, '-')) != [] ==>
      Split(SlugTitle(movieId), ' ') == SlugWords(Split(movieId, '-'))
  {
    var parts := Split(movieId, '-');
    SlugWordsWithout(parts, '-');
    JoinWithout(SlugWords(parts), " ", '-');
    if ' ' !in movieId && SlugWords(parts) != [] {
      forall k | 0 <= k < |parts| ensures ' ' !in parts[k] {
        SplitPartsWithin(movieId, '-', ' ', k);
      }
      SlugWordsWithout(parts, ' ');
      SplitJoin(SlugWords(parts), ' ');
    }
  }

  /** A character absent from the text is absent from every part. */
  lemma {:induction false} SplitPartsWithin(s: string, sep: char, c: char, k: int)
    requires c !in s && 0 <= k < |Split(s, sep)|
    ensures c !in Split(s, sep)[k]
    decreases |s|
  {
    if s != [] {
      var rest := Split(s[1..], sep);
      assert c !in s[1..];
      if s[0] == sep {
        if k > 0 {
          SplitPartsWithin(s[1..], sep, c, k - 1);
        }
      } else if k > 0 {
        SplitPartsWithin(s[1..], sep, c, k);
      } else {
        SplitPartsWithin(s[1..], sep, c, 0);
      }
    }
  }

  /** The label of `utils/film.py`: the stored name, or the slug's title. */
  function Label(f: Film): string {
    if f.name.Some? then f.name.value else SlugTitle(f.movieId)
  }

  /** One line; formatting the missing average or count raises `KeyError`. */
  function LineOf(f: Film): (r: Result<TopLine>)
    ensures r.Err? <==> f.guildAvg.None? || f.ratingCount.None?
  {
    if f.guildAvg.None? || f.ratingCount.None? then Err(KeyError)
    else Ok(TopLine(Label(f), f.movieId, f.guildAvg.value, f.ratingCount.value))
  }

  function Lines(fs: seq<Film>): Result<seq<TopLine>>
    decreases |fs|
  {
    if fs == [] then Ok([])
    else match LineOf(fs[0])
      case Err(e) => Err(e)
      case Ok(l) => match Lines(fs[1..])
        case Err(e) => Err(e)
        case Ok(ls) => Ok([l] + ls)
  }

  function PrependLines(done: seq<TopLine>, rest: Result<seq<TopLine>>): Result<seq<TopLine>> {
    match rest
    case Err(e) => Err(e)
    case Ok(ls) => Ok(done + ls)
  }

  /** What `top_films_list` lists: the qualifying films, best average first,
      the first 200 of them. */
  function TopFilms(films: seq<Film>, threshold: int): Result<seq<TopLine>> {
    Lines(Take(SortByAvg(Qualifying(films, threshold)), MaxTopFilms))
  }

  /** `top_films_list` in `utils/film.py`: walks the sorted query result,
      appending lines until the counter reaches 200. */
  method TopFilmsList(db: Database, threshold: int) returns (r: Result<seq<TopLine>>)
    ensures r == TopFilms(db.films, threshold)
  {
    var topFilms := SortByAvg(Qualifying(db.films, threshold));
    ghost var taken := Take(topFilms, MaxTopFilms);
    var topfShort: seq<TopLine> := [];
    var counter := 0;
    assert taken[0..] == taken;
    assert PrependLines([], Lines(taken)) == Lines(taken) by {
      if Lines(taken).Ok? {
        assert [] + Lines(taken).value == Lines(taken).value;
      }
    }
    for i := 0 to |topFilms|
      invariant counter == i <= |taken|
      invariant Lines(taken) == PrependLines(topfShort, Lines(taken[i..]))
    {
      if counter == 200 {
        break;
      }
      assert taken[i] == topFilms[i];
      assert taken[i..][1..] == taken[i + 1..];
      var line := LineOf(topFilms[i]);
      if line.Err? {
        return Err(line.error);
      }
      match Lines(taken[i + 1..]) {
        case Err(_) =>
        case Ok(rest) => assert topfShort + ([line.value] + rest) == topfShort + [line.value] + rest;
      }
      topfShort := topfShort + [line.value];
      counter := counter + 1;
    }
    assert taken[|taken|..] == [];
    assert topfShort + [] == topfShort;
    r := Ok(topfShort);
  }

  lemma {:induction false} LinesOf(fs: seq<Film>)
    ensures Lines(fs).Ok? <==> forall k :: 0 <= k < |fs| ==> LineOf(fs[k]).Ok?
    ensures Lines(fs).Ok? ==> |Lines(fs).value| == |fs|
    ensures Lines(fs).Ok? ==>
      forall k :: 0 <= k < |fs| ==> Lines(fs).value[k] == LineOf(fs[k]).value
    decreases |fs|
  {
    if fs != [] {
      LinesOf(fs[1..]);
      if LineOf(fs[0]).Ok? && Lines(fs[1..]).Ok? {
        var ls := Lines(fs).value;
        assert forall k :: 1 <= k < |fs| ==> ls[k] == Lines(fs[1..]).value[k - 1];
      }
      if !Lines(fs[1..]).Ok? {
        var k :| 0 <= k < |fs[1..]| && !LineOf(fs[1..][k]).Ok?;
        assert fs[1..][k] == fs[k + 1];
      }
    }
  }

  /** The top list holds at most 200 lines, each of a film with at least
      `threshold` ratings. */
  lemma TopFilmsBounded(films: seq<Film>, threshold: int)
    requires TopFilms(films, threshold).Ok?
    ensures |TopFilms(films, threshold).value| <= MaxTopFilms
    ensures forall k :: 0 <= k < |TopFilms(films, threshold).value| ==> TopFilms(films, threshold).value[k].count >= threshold
  {
    var q := Qualifying(films, threshold);
    var sorted := SortByAvg(q);
    var taken := Take(sorted, MaxTopFilms);
    LinesOf(taken);
    var ls := TopFilms(films, threshold).value;
    forall k | 0 <= k < |ls| ensures ls[k].count >= threshold {
      assert taken[k] == sorted[k];
      assert sorted[k] in multiset(q);
      QualifyingMeans(films, threshold, taken[k]);
    }
  }

  /** Averages never increase down the top list. */
  lemma TopFilmsOrdered(films: seq<Film>, threshold: int)
    requires TopFilms(films, threshold).Ok?
    ensures var ls := TopFilms(films, threshold).value;
      forall k, l :: 0 <= k < l < |ls| ==> ls[k].avg >= ls[l].avg
  {
    var sorted := SortByAvg(Qualifying(films, threshold));
    var taken := Take(sorted, MaxTopFilms);
    LinesOf(taken);
    var ls := TopFilms(films, threshold).value;
    forall k, l | 0 <= k < l < |ls| ensures ls[k].avg >= ls[l].avg {
      assert taken[k] == sorted[k] && taken[l] == sorted[l];
      assert AtLeast(sorted[k], sorted[l]);
    }
  }

  /** When no more than 200 films qualify, every one of them is listed. */
  lemma TopFilmsComplete(films: seq<Film>, threshold: int, f: Film)
    requires TopFilms(films, threshold).Ok?
    requires |Qualifying(films, threshold)| <= MaxTopFilms
    requires f in films && f.ratingCount.Some? && f.ratingCount.value >= threshold
    ensures exists k :: 0 <= k < |TopFilms(films, threshold).value| && TopFilms(films, threshold).value[k].target == f.movieId
  {
    var q := Qualifying(films, threshold);
    var sorted := SortByAvg(q);
    assert |sorted| == |multiset(sorted)| == |multiset(q)| == |q|;
    assert Take(sorted, MaxTopFilms) == sorted;
    LinesOf(sorted);
    QualifyingMeans(films, threshold, f);
    assert f in multiset(q);
    assert f in multiset(sorted);
    var k :| 0 <= k < |sorted| && sorted[k] == f;
    assert TopFilms(films, threshold).value[k].target == f.movieId;
  }

  // ---------------------------------------------- top films, older module

  /** The older module's line: the stored name, when there is one, replaces
      the slug in both the label and the link. */
  function LegacyLineOf(f: Film): (r: Result<TopLine>)
    ensures r.Ok? ==> r.value.caption == r.value.target
  {
    var shown := if f.name.Some? then f.name.value else f.movieId;
    if f.guildAvg.None? || f.ratingCount.None? then Err(KeyError)
    else Ok(TopLine(shown, shown, f.guildAvg.value, f.ratingCount.value))
  }

  function LegacyLines(fs: seq<Film>): Result<seq<TopLine>>
    decreases |fs|
  {
    if fs == [] then Ok([])
    else match LegacyLineOf(fs[0])
      case Err(e) => Err(e)
      case Ok(l) => match LegacyLines(fs[1..])
        case Err(e) => Err(e)
        case Ok(ls) => Ok([l] + ls)
  }

  /** One turn of the older list's loop: a failing line is the list's
      error, otherwise the line joins the lines so far. */
  lemma LegacyLinesStep(fs: seq<Film>, i: nat, done: seq<TopLine>)
    requires i < |fs|
    requires LegacyLines(fs) == PrependLines(done, LegacyLines(fs[i..]))
    ensures LegacyLineOf(fs[i]).Err? ==> LegacyLines(fs) == Err(LegacyLineOf(fs[i]).error)
    ensures LegacyLineOf(fs[i]).Ok? ==>
      LegacyLines(fs) == PrependLines(done + [LegacyLineOf(fs[i]).value], LegacyLines(fs[i + 1..]))
  {
    assert fs[i..][0] == fs[i];
    assert fs[i..][1..] == fs[i + 1..];
    match LegacyLines(fs[i + 1..]) {
      case Err(_) =>
      case Ok(rest) =>
        if LegacyLineOf(fs[i]).Ok? {
          var l := LegacyLineOf(fs[i]).value;
          assert done + ([l] + rest) == done + [l] + rest;
        }
    }
  }

  /** `top_films_list` in `film.py`: the first 200 results of the same
      query, one line each. */
  method LegacyTopFilmsList(db: Database, threshold: int) returns (r: Result<seq<TopLine>>)
    ensures r == LegacyLines(Take(SortByAvg(Qualifying(db.films, threshold)), MaxTopFilms))
  {
    var topFilms := Take(SortByAvg(Qualifying(db.films, threshold)), MaxTopFilms);
    var topfShort: seq<TopLine> := [];
    assert topFilms[0..] == topFilms;
    assert PrependLines([], LegacyLines(topFilms)) == LegacyLines(topFilms) by {
      if LegacyLines(topFilms).Ok? {
        assert [] + LegacyLines(topFilms).value == LegacyLines(topFilms).value;
      }
    }
    for i := 0 to |topFilms|
      invariant LegacyLines(topFilms) == PrependLines(topfShort, LegacyLines(topFilms[i..]))
    {
      var line := LegacyLineOf(topFilms[i]);
      LegacyLinesStep(topFilms, i, topfShort);
      if line.Err? {
        return Err(line.error);
      }
      topfShort := topfShort + [line.value];
    }
    assert topFilms[|topFilms|..] == [];
    assert topfShort + [] == topfShort;
    r := Ok(topfShort);
  }

  /** The current line `l` and the older line `o` for the film `f` show the
      same numbers; the current one links the slug, the older one the stored
      name when there is one, and with a stored name both show it. */
  predicate LineAgrees(l: TopLine, o: TopLine, f: Film) {
    && l.avg == o.avg && l.count == o.count
    && l.target == f.movieId
    && o.target == (if f.name.Some? then f.name.value else f.movieId)
    && (f.name.Some? ==> l.caption == o.caption)
  }

  /** The two modules list the same films in the same order with the same
      numbers and fail on the same documents; they differ only in that the
      older one shows and links the stored name, and the current one shows
      the name (or the slug's title) and always links the slug. */
  lemma {:induction false} LegacyTopAgrees(fs: seq<Film>)
    ensures LegacyLines(fs).Ok? <==> Lines(fs).Ok?
    ensures Lines(fs).Ok? ==>
      var ls := Lines(fs).value;
      var old_ := LegacyLines(fs).value;
      && |ls| == |old_| == |fs|
      && forall k :: 0 <= k < |ls| ==> LineAgrees(ls[k], old_[k], fs[k])
    decreases |fs|
  {
    if fs != [] {
      LegacyTopAgrees(fs[1..]);
      if Lines(fs).Ok? {
        var ls := Lines(fs).value;
        var old_ := LegacyLines(fs).value;
        var ts := Lines(fs[1..]).value;
        var ots := LegacyLines(fs[1..]).value;
        assert ls == [LineOf(fs[0]).value] + ts;
        assert old_ == [LegacyLineOf(fs[0]).value] + ots;
        forall k | 0 <= k < |ls|
          ensures LineAgrees(ls[k], old_[k], fs[k])
        {
          if k > 0 {
            assert ls[k] == ts[k - 1] && old_[k] == ots[k - 1] && fs[k] == fs[1..][k - 1];
          }
        }
      }
    }
  }
}
