/** The film-information helpers shared by the current command module
    (`utils/film.py`), its older copy (`film.py`) and the watchlist cog
    (`cogs/film.py`): the Letterboxd link, the runtime footer, the country
    list, the search result and which film an embed is built for. */
module FilmInfo {
  import opened Common

  datatype Link = Link(kind: string, url: string)

  /** A film as the Letterboxd API describes it, reduced to the fields the
      bot reads. `posterSizes` holds the urls of `poster.sizes`. */
  datatype FilmDetails = FilmDetails(
    id: string,
    name: string,
    links: seq<Link>,
    releaseYear: Option<int>,
    posterSizes: Option<seq<string>>,
    runTime: Option<int>,
    countries: Option<seq<string>>)

  /** The search endpoint: the `items` it answers for a query. */
  type SearchApi = string -> seq<FilmDetails>

  // ------------------------------------------------------------------ link

  predicate IsFirstLetterboxd(links: seq<Link>, i: int) {
    && 0 <= i < |links|
    && links[i].kind == "letterboxd"
    && forall j :: 0 <= j < i ==> links[j].kind != "letterboxd"
  }

  /** `get_link`: the url of the first link of type `letterboxd`. */
  function GetLink(links: seq<Link>): (r: Option<string>)
    ensures r.None? <==> forall i :: 0 <= i < |links| ==> links[i].kind != "letterboxd"
  {
    if links == [] then None
    else if links[0].kind == "letterboxd" then Some(links[0].url)
    else GetLink(links[1..])
  }

  /** The link found is that of the first `letterboxd` entry, and any first
      `letterboxd` entry is the one found. */
  lemma {:induction false} GetLinkFirst(links: seq<Link>, i: int)
    ensures IsFirstLetterboxd(links, i) ==> GetLink(links) == Some(links[i].url)
    ensures GetLink(links).Some? ==> exists k :: IsFirstLetterboxd(links, k) && links[k].url == GetLink(links).value
    decreases |links|
  {
    if links != [] && links[0].kind != "letterboxd" {
      GetLinkFirst(links[1..], i - 1);
      if IsFirstLetterboxd(links, i) {
        assert IsFirstLetterboxd(links[1..], i - 1);
      }
      if GetLink(links).Some? {
        var k :| IsFirstLetterboxd(links[1..], k) && links[1..][k].url == GetLink(links).value;
        assert IsFirstLetterboxd(links, k + 1);
      }
    } else if links != [] {
      assert IsFirstLetterboxd(links, 0);
    }
  }

  /** `link.split('/')[-2]` on the result of `get_link`: calling `split` on a
      missing link raises `AttributeError`. */
  function MovieIdOfLink(link: Option<string>): (r: Result<string>)
    ensures link.None? ==> r == Err(AttributeError)
    ensures link.Some? ==> r == LinkSlug(link.value)
  {
    match link
    case None => Err(AttributeError)
    case Some(l) => LinkSlug(l)
  }

  /** `poster['sizes'][-1]['url']` when the film has a poster. */
  function PosterUrl(sizes: Option<seq<string>>): (r: Result<Option<string>>)
    ensures r.Err? <==> sizes == Some([])
    ensures r.Ok? && r.value.Some? ==> sizes.Some? && r.value.value == Last(sizes.value)
    ensures r == Ok(None) <==> sizes.None?
  {
    match sizes
    case None => Ok(None)
    case Some(s) => if s == [] then Err(IndexError) else Ok(Some(Last(s)))
  }

  // --------------------------------------------------------------- runtime

  /** The footer for a runtime in minutes. Python's `//` and `%` by 60 floor
      and give a remainder in [0, 60), as Dafny's do for a positive divisor. */
  function RuntimeFooter(runtime: int): (r: string)
    ensures runtime >= 60 <==> |r| > 0 && r[0] == '\n'
  {
    var hours := runtime / 60;
    var minutes := runtime % 60;
    if hours > 0 then "\n" + IntToString(hours) + " hour " + IntToString(minutes) + " min"
    else IntToString(runtime) + " min"
  }

  /** Reads a footer back as minutes: `N min`, or `H hour M min` after a
      line break. */
  function FooterMinutes(text: string): Option<int> {
    var parts := Split(text, ' ');
    if |parts| == 4 && |parts[0]| >= 1 && parts[0][0] == '\n' && parts[1] == "hour" && parts[3] == "min" then
      match (ParseInt(parts[0][1..]), ParseInt(parts[2]))
      case (Some(h), Some(m)) => Some(h * 60 + m)
      case _ => None
    else if |parts| == 2 && parts[1] == "min" then ParseInt(parts[0])
    else None
  }

  lemma NoSpaceInNumber(i: int)
    ensures ' ' !in IntToString(i) && '\n' !in IntToString(i)
  {
    if i < 0 {
      assert IntToString(i)[1..] == NatToString(-i);
    }
  }

  lemma Assoc(a: string, b: string, c: string)
    ensures (a + b) + c == a + (b + c)
  {
  }

  lemma SplitFour(a: string, b: string, c: string, d: string)
    requires ' ' !in a && ' ' !in b && ' ' !in c && ' ' !in d
    ensures Split(a + [' '] + (b + [' '] + (c + [' '] + d)), ' ') == [a, b, c, d]
  {
    SplitNone(d, ' ');
    SplitAround(c, ' ', d);
    SplitAround(b, ' ', c + [' '] + d);
    SplitAround(a, ' ', b + [' '] + (c + [' '] + d));
  }

  lemma HoursFooterText(head: string, ms: string)
    ensures head + " hour " + ms + " min" == head + [' '] + ("hour" + [' '] + (ms + [' '] + "min"))
  {
    var tail := ms + [' '] + "min";
    assert " hour " == [' '] + ("hour" + [' ']);
    assert " min" == [' '] + "min";
    Assoc(ms, [' '], "min");
    Assoc("hour" + [' '], ms, [' '] + "min");
    Assoc("hour", [' '], tail);
    assert " hour " + ms + " min" == [' '] + ("hour" + [' '] + tail) by {
      Assoc([' '], "hour" + [' '], ms);
      Assoc([' '] + ("hour" + [' ']), ms, " min");
      Assoc([' '], ("hour" + [' ']) + ms, " min");
    }
    Assoc(head, " hour ", ms);
    Assoc(head, " hour " + ms, " min");
    Assoc(head, [' '], "hour" + [' '] + tail);
  }

  lemma HoursFooterParts(hs: string, ms: string)
    requires ' ' !in hs && ' ' !in ms
    ensures Split("\n" + hs + " hour " + ms + " min", ' ') == ["\n" + hs, "hour", ms, "min"]
  {
    HoursFooterText("\n" + hs, ms);
    assert ' ' !in "\n" + hs && ' ' !in "hour" && ' ' !in "min";
    SplitFour("\n" + hs, "hour", ms, "min");
  }

  lemma HoursFooter(h: int, m: int)
    ensures FooterMinutes("\n" + IntToString(h) + " hour " + IntToString(m) + " min") == Some(h * 60 + m)
  {
    var hs := IntToString(h);
    var ms := IntToString(m);
    NoSpaceInNumber(h);
    NoSpaceInNumber(m);
    HoursFooterParts(hs, ms);
    IntToStringRoundTrip(h);
    IntToStringRoundTrip(m);
    assert ("\n" + hs)[1..] == hs;
  }

  lemma MinutesFooter(n: int)
    ensures FooterMinutes(IntToString(n) + " min") == Some(n)
  {
    NoSpaceInNumber(n);
    IntToStringRoundTrip(n);
    SplitNone("min", ' ');
    assert IntToString(n) + " min" == IntToString(n) + [' '] + "min";
    SplitAround(IntToString(n), ' ', "min");
  }

  /** The footer always states the runtime exactly: split into hours and
      minutes it still adds up to the same number of minutes. */
  lemma FooterRoundTrip(runtime: int)
    ensures FooterMinutes(RuntimeFooter(runtime)) == Some(runtime)
  {
    if runtime / 60 > 0 {
      HoursFooter(runtime / 60, runtime % 60);
    } else {
      MinutesFooter(runtime);
    }
  }

  // ------------------------------------------------------------- countries

  /** How many countries the description shows: three at most, two at most
      at the lowest verbosity. */
  function CountryCap(n: nat, verbosity: int): (c: nat)
    ensures c <= n && c <= 3
    ensures verbosity == 0 ==> c <= 2
    ensures c == n || c == (if verbosity == 0 then 2 else 3)
  {
    var limit := if verbosity == 0 then 2 else 3;
    if n < limit then n else limit
  }

  /** Each name followed by `, `, as the loop accumulates them. */
  function Terminated(names: seq<string>): string {
    if names == [] then "" else names[0] + ", " + Terminated(names[1..])
  }

  /** Python's `s[:-2]`. */
  function DropLast2(s: string): string {
    if |s| >= 2 then s[..|s| - 2] else ""
  }

  lemma {:induction false} TerminatedSnoc(names: seq<string>, name: string)
    ensures Terminated(names + [name]) == Terminated(names) + name + ", "
    decreases |names|
  {
    if names != [] {
      assert (names + [name])[1..] == names[1..] + [name];
      TerminatedSnoc(names[1..], name);
    } else {
      assert ([] + [name])[1..] == [];
    }
  }

  lemma {:induction false} TerminatedLength(names: seq<string>)
    ensures names != [] ==> |Terminated(names)| >= 2
    decreases |names|
  {
    if names != [] {
      TerminatedLength(names[1..]);
    }
  }

  /** Dropping the final `, ` of the accumulated text is joining with `, `. */
  lemma {:induction false} DropLast2Terminated(names: seq<string>)
    ensures DropLast2(Terminated(names)) == Join(names, ", ")
    decreases |names|
  {
    if |names| == 1 {
      assert names[1..] == [];
      assert (names[0] + ", ")[..|names[0]|] == names[0];
    } else if |names| > 1 {
      DropLast2Terminated(names[1..]);
      TerminatedLength(names[1..]);
      var t := Terminated(names[1..]);
      assert (names[0] + ", " + t)[..|names[0] + ", " + t| - 2] == names[0] + ", " + t[..|t| - 2];
    }
  }

  /** The country part of `get_description`: the first countries in input
      order, joined with `, `; nothing when the film lists none. */
  method CountryText(countries: Option<seq<string>>, verbosity: int) returns (s: string)
    ensures countries.None? ==> s == ""
    ensures countries.Some? ==> s == Join(countries.value[..CountryCap(|countries.value|, verbosity)], ", ")
  {
    if countries.None? {
      return "";
    }
    var cs := countries.value;
    var countryStr := "";
    var i := 0;
    while i < |cs|
      invariant 0 <= i <= CountryCap(|cs|, verbosity)
      invariant countryStr == Terminated(cs[..i])
    {
      if i == 3 {
        break;
      }
      if verbosity == 0 && i == 2 {
        break;
      }
      TerminatedSnoc(cs[..i], cs[i]);
      assert cs[..i + 1] == cs[..i] + [cs[i]];
      countryStr := countryStr + cs[i] + ", ";
      i := i + 1;
    }
    DropLast2Terminated(cs[..i]);
    s := DropLast2(countryStr);
  }

  // ---------------------------------------------------------------- search

  /** `get_search_result`: the film of the first search item, if any. */
  function GetSearchResult(api: SearchApi, keywords: string): (r: Option<FilmDetails>)
    ensures r.None? <==> api(keywords) == []
    ensures r.Some? ==> r.value == api(keywords)[0]
  {
    var items := api(keywords);
    if items == [] then None else Some(items[0])
  }

  /** The film `get_film_embed` in `utils/film.py` describes: a non-empty
      keyword search decides it, overriding any id; no match means no embed
      (`None`). */
  function ChosenFilmId(api: SearchApi, keywords: string, filmId: string): Option<string> {
    if keywords != "" then
      match GetSearchResult(api, keywords)
      case None => None
      case Some(f) => Some(f.id)
    else Some(filmId)
  }

  /** The same choice in the older `film.py`: a given id overrides the search
      result, a failed search still ends with no embed, and with neither the
      film instance is never bound. */
  function LegacyChosenFilmId(api: SearchApi, keywords: string, filmId: string): Result<Option<string>> {
    if keywords != "" && GetSearchResult(api, keywords).None? then Ok(None)
    else if filmId != "" then Ok(Some(filmId))
    else if keywords != "" then Ok(Some(GetSearchResult(api, keywords).value.id))
    else Err(UnboundLocalError)
  }

  /** Which input wins: the search in the current module, the id in the
      older one; only a missing film ends without an embed, in both. */
  lemma ChoicePrecedence(api: SearchApi, keywords: string, filmId: string)
    ensures keywords != "" && api(keywords) != [] ==> ChosenFilmId(api, keywords, filmId) == Some(api(keywords)[0].id)
    ensures filmId != "" && (keywords == "" || api(keywords) != []) ==> LegacyChosenFilmId(api, keywords, filmId) == Ok(Some(filmId))
    ensures ChosenFilmId(api, keywords, filmId).None? <==> keywords != "" && api(keywords) == []
    ensures LegacyChosenFilmId(api, keywords, filmId) == Ok(None) <==> keywords != "" && api(keywords) == []
    ensures LegacyChosenFilmId(api, keywords, filmId).Err? <==> keywords == "" && filmId == ""
  {
  }

  /** With exactly one of the two inputs given, both versions pick the same
      film. */
  lemma ChoicesAgree(api: SearchApi, keywords: string, filmId: string)
    requires (keywords == "") != (filmId == "")
    ensures LegacyChosenFilmId(api, keywords, filmId) == Ok(ChosenFilmId(api, keywords, filmId))
  {
  }
}
