/** The diary embed (`utils/diary.py`): one text block per diary entry,
    in the order of the ids, with the poster of the last entry's film as
    the thumbnail. */
module Diary {
  import opened Common
  import opened FilmInfo

  /** The film of a log entry, reduced to the fields the embed reads. */
  datatype DiaryFilm = DiaryFilm(name: string, releaseYear: Option<int>, posterSizes: Option<seq<string>>)

  datatype DiaryDetails = DiaryDetails(diaryDate: string, rewatch: bool)

  /** A log entry as the API answers `log-entry/{id}`. Letterboxd ratings
      are multiples of one half, so `rating` counts half stars. */
  datatype LogEntry = LogEntry(
    film: DiaryFilm,
    links: seq<Link>,
    diaryDetails: Option<DiaryDetails>,
    rating: Option<nat>,
    like: bool,
    review: Option<string>)

  /** The log-entry endpoint, by diary id. */
  type LogApi = string -> LogEntry

  /** `markdownify` on a review's text. */
  type Markdown = string -> string

  function Repeat(c: char, n: nat): (r: string)
    ensures |r| == n && forall i :: 0 <= i < n ==> r[i] == c
  {
    if n == 0 then "" else [c] + Repeat(c, n - 1)
  }

  /** The rating text: a space, one `★` per whole star, then `½ ` when the
      rating has a half (its decimal form then ends in `5`). */
  function StarsText(halves: nat): string {
    " " + Repeat('★', halves / 2) + (if halves % 2 == 1 then "½ " else "")
  }

  /** The number of leading `★`. */
  function LeadingStars(s: string): (n: nat)
    ensures n <= |s| && forall i :: 0 <= i < n ==> s[i] == '★'
    ensures n < |s| ==> s[n] != '★'
  {
    if s != [] && s[0] == '★' then 1 + LeadingStars(s[1..]) else 0
  }

  /** Reads a rating back from its text. */
  function HalvesOf(text: string): Option<nat> {
    if text == [] || text[0] != ' ' then None
    else
      var body := text[1..];
      var whole := LeadingStars(body);
      var rest := body[whole..];
      if rest == "" then Some(2 * whole)
      else if rest == "½ " then Some(2 * whole + 1)
      else None
  }

  lemma {:induction false} LeadingStarsOfRepeat(n: nat, tail: string)
    requires tail == [] || tail[0] != '★'
    ensures LeadingStars(Repeat('★', n) + tail) == n
    decreases n
  {
    if n > 0 {
      assert (Repeat('★', n) + tail)[1..] == Repeat('★', n - 1) + tail;
      LeadingStarsOfRepeat(n - 1, tail);
    }
  }

  /** The rating text determines the rating. */
  lemma StarsRoundTrip(halves: nat)
    ensures HalvesOf(StarsText(halves)) == Some(halves)
  {
    var half := if halves % 2 == 1 then "½ " else "";
    var text := StarsText(halves);
    LeadingStarsOfRepeat(halves / 2, half);
    assert text[1..] == Repeat('★', halves / 2) + half;
    assert text[1..][halves / 2..] == half;
  }

  /** The heading of a block: the film's name and year, linked to its
      Letterboxd page (`None` when it has none). */
  function Heading(name: string, year: int, link: Option<string>): string {
    "**[" + name + " (" + IntToString(year) + ")]" + "(" + (match link case Some(url) => url case None => "None") + ")**\n"
  }

  function DatePart(dd: DiaryDetails): string { "**" + dd.diaryDate + "** " }
  function RatingPart(rating: Option<nat>): string { match rating case Some(h) => StarsText(h) case None => "" }
  function LikePart(like: bool): string { if like then " <3" else "" }
  function RewatchPart(dd: DiaryDetails): string { if dd.rewatch then " ↺" else "" }
  function ReviewPart(review: Option<string>, md: Markdown): string {
    match review case Some(t) => "\n```" + md(t) + "```" case None => ""
  }

  /** The block `get_diary_embed` writes for one entry. The year and the
      diary details are looked up by key, so an entry without either raises
      `KeyError`. */
  function EntryText(e: LogEntry, md: Markdown): (r: Result<string>)
    ensures r.Err? <==> e.film.releaseYear.None? || e.diaryDetails.None?
    ensures r.Err? ==> r.error == KeyError
  {
    if e.film.releaseYear.None? || e.diaryDetails.None? then Err(KeyError)
    else
      Ok(Heading(e.film.name, e.film.releaseYear.value, GetLink(e.links))
        + DatePart(e.diaryDetails.value) + RatingPart(e.rating) + LikePart(e.like)
        + RewatchPart(e.diaryDetails.value) + ReviewPart(e.review, md) + "\n")
  }

  /** A suffix that splits as `x + y` has `x` first and `y` after it. */
  lemma CutAt<T>(t: seq<T>, o: nat, x: seq<T>, y: seq<T>)
    requires o <= |t| && t[o..] == x + y
    ensures o + |x| <= |t| && t[o..o + |x|] == x && t[o + |x|..] == y
  {
    assert t[o..][..|x|] == x;
    assert t[o..][|x|..] == y;
  }

  /** The pieces of a right-nested concatenation sit at their running offsets. */
  lemma NestedParts<T>(t: seq<T>, h: seq<T>, d: seq<T>, r: seq<T>, l: seq<T>, w: seq<T>, v: seq<T>, n: seq<T>)
    requires t == h + (d + (r + (l + (w + (v + n)))))
    ensures var o1 := |h|; var o2 := o1 + |d|; var o3 := o2 + |r|; var o4 := o3 + |l|; var o5 := o4 + |w|;
      && |t| == o5 + |v| + |n|
      && t[..o1] == h && t[o1..o2] == d && t[o2..o3] == r && t[o3..o4] == l && t[o4..o5] == w
      && t[o5..o5 + |v|] == v && t[o5 + |v|..] == n
  {
    assert t[0..] == t;
    CutAt(t, 0, h, d + (r + (l + (w + (v + n)))));
    CutAt(t, |h|, d, r + (l + (w + (v + n))));
    CutAt(t, |h| + |d|, r, l + (w + (v + n)));
    CutAt(t, |h| + |d| + |r|, l, w + (v + n));
    CutAt(t, |h| + |d| + |r| + |l|, w, v + n);
    CutAt(t, |h| + |d| + |r| + |l| + |w|, v, n);
  }

  /** `t` is the six pieces `h`, `d`, `r`, `l`, `w`, `v` at their running
      offsets, followed by a final newline. */
  predicate PiecesAt(t: string, h: string, d: string, r: string, l: string, w: string, v: string) {
    var o1 := |h|; var o2 := o1 + |d|; var o3 := o2 + |r|; var o4 := o3 + |l|; var o5 := o4 + |w|;
    && |t| == o5 + |v| + 1
    && t[..o1] == h && t[o1..o2] == d && t[o2..o3] == r && t[o3..o4] == l && t[o4..o5] == w
    && t[o5..|t| - 1] == v && Last(t) == '\n'
  }

  /** Seven consecutive pieces sit at their running offsets. */
  lemma SevenParts(h: string, d: string, r: string, l: string, w: string, v: string)
    ensures PiecesAt(h + d + r + l + w + v + "\n", h, d, r, l, w, v)
  {
    var n := "\n";
    var t := h + d + r + l + w + v + n;
    Regroup(h + d + r + l + w, v, n);
    Regroup(h + d + r + l, w, v + n);
    Regroup(h + d + r, l, w + (v + n));
    Regroup(h + d, r, l + (w + (v + n)));
    Regroup(h, d, r + (l + (w + (v + n))));
    NestedParts(t, h, d, r, l, w, v, n);
    assert Last(t) == t[|t| - 1..][0];
  }

  lemma Regroup<T>(a: seq<T>, b: seq<T>, c: seq<T>)
    ensures a + b + c == a + (b + c)
  {
  }

  /** Every block opens with the film's linked heading, then the diary date,
      the rating text, the heart of a like, the rewatch mark and the review,
      each at its place, and ends its line. */
  lemma EntryTextShape(e: LogEntry, md: Markdown)
    requires EntryText(e, md).Ok?
    ensures PiecesAt(EntryText(e, md).value, Heading(e.film.name, e.film.releaseYear.value, GetLink(e.links)),
      DatePart(e.diaryDetails.value), RatingPart(e.rating), LikePart(e.like),
      RewatchPart(e.diaryDetails.value), ReviewPart(e.review, md))
  {
    SevenParts(Heading(e.film.name, e.film.releaseYear.value, GetLink(e.links)), DatePart(e.diaryDetails.value),
      RatingPart(e.rating), LikePart(e.like), RewatchPart(e.diaryDetails.value), ReviewPart(e.review, md));
  }

  /** The result of each id's entry, in order. */
  function Texts(api: LogApi, md: Markdown, dids: seq<string>): (rs: seq<Result<string>>)
    ensures |rs| == |dids|
    ensures forall k :: 0 <= k < |dids| ==> rs[k] == EntryText(api(dids[k]), md)
  {
    seq(|dids|, k requires 0 <= k < |dids| => EntryText(api(dids[k]), md))
  }

  /** The blocks joined in order; the first failing entry's error ends it. */
  function Joined(rs: seq<Result<string>>): Result<string>
    decreases |rs|
  {
    if rs == [] then Ok("")
    else match rs[0]
      case Err(e) => Err(e)
      case Ok(t) => PrependText(t, Joined(rs[1..]))
  }

  function PrependText(pre: string, r: Result<string>): Result<string> {
    match r case Ok(s) => Ok(pre + s) case Err(e) => Err(e)
  }

  /** The text `get_diary_embed` builds for a list of diary ids. */
  function Blocks(api: LogApi, md: Markdown, dids: seq<string>): Result<string> {
    Joined(Texts(api, md, dids))
  }

  lemma {:induction false} JoinedAppend(a: seq<Result<string>>, b: seq<Result<string>>)
    ensures Joined(a + b) ==
      match Joined(a)
      case Err(e) => Err(e)
      case Ok(s) => PrependText(s, Joined(b))
    decreases |a|
  {
    if a == [] {
      assert a + b == b;
      match Joined(b) {
        case Err(_) =>
        case Ok(s) => assert "" + s == s;
      }
    } else {
      assert (a + b)[0] == a[0];
      assert (a + b)[1..] == a[1..] + b;
      JoinedAppend(a[1..], b);
      match a[0] {
        case Err(_) =>
        case Ok(t) =>
          match Joined(a[1..]) {
            case Err(_) =>
            case Ok(s) =>
              match Joined(b) {
                case Err(_) =>
                case Ok(u) => assert t + (s + u) == (t + s) + u;
              }
          }
      }
    }
  }

  /** Blocks for consecutive runs of ids join up: the text for `a + b` is
      the text for `a` followed by the text for `b`. */
  lemma BlocksAppend(api: LogApi, md: Markdown, a: seq<string>, b: seq<string>)
    ensures Blocks(api, md, a + b) ==
      match Blocks(api, md, a)
      case Err(e) => Err(e)
      case Ok(s) => PrependText(s, Blocks(api, md, b))
  {
    TextsAppend(api, md, a, b);
    JoinedAppend(Texts(api, md, a), Texts(api, md, b));
  }

  lemma TextsAppend(api: LogApi, md: Markdown, a: seq<string>, b: seq<string>)
    ensures Texts(api, md, a + b) == Texts(api, md, a) + Texts(api, md, b)
  {
    var whole := Texts(api, md, a + b);
    var parts := Texts(api, md, a) + Texts(api, md, b);
    assert |whole| == |parts|;
    forall k | 0 <= k < |whole|
      ensures whole[k] == parts[k]
    {
      if k < |a| {
        assert (a + b)[k] == a[k];
        assert parts[k] == Texts(api, md, a)[k];
      } else {
        assert (a + b)[k] == b[k - |a|];
        assert parts[k] == Texts(api, md, b)[k - |a|];
      }
    }
  }

  lemma {:induction false} JoinedOk(rs: seq<Result<string>>)
    ensures Joined(rs).Ok? <==> forall i :: 0 <= i < |rs| ==> rs[i].Ok?
    decreases |rs|
  {
    if rs != [] {
      JoinedOk(rs[1..]);
      assert forall i :: 1 <= i < |rs| ==> rs[1..][i - 1] == rs[i];
    }
  }

  /** The text is made only of each entry's block: it is present exactly
      when every entry has its year and diary details. */
  lemma BlocksOk(api: LogApi, md: Markdown, dids: seq<string>)
    ensures Blocks(api, md, dids).Ok? <==>
      forall i :: 0 <= i < |dids| ==> api(dids[i]).film.releaseYear.Some? && api(dids[i]).diaryDetails.Some?
  {
    JoinedOk(Texts(api, md, dids));
  }

  /** The thumbnail: the last size of the film's poster, when it has one. */
  function Thumbnail(film: DiaryFilm): (r: Result<Option<string>>)
    ensures r.Err? <==> film.posterSizes == Some([])
    ensures r.Ok? && r.value.Some? ==> film.posterSizes.Some? && r.value.value == Last(film.posterSizes.value)
  {
    match film.posterSizes
    case None => Ok(None)
    case Some(sizes) => if sizes == [] then Err(IndexError) else Ok(Some(Last(sizes)))
  }

  /** The appends `get_diary_embed` makes for one entry, in the order it
      makes them. */
  method EntryBlock(entry: LogEntry, md: Markdown) returns (r: Result<string>)
    ensures r == EntryText(entry, md)
  {
    if entry.film.releaseYear.None? {
      return Err(KeyError);
    }
    var block := Heading(entry.film.name, entry.film.releaseYear.value, GetLink(entry.links));
    if entry.diaryDetails.Some? {
      block := block + DatePart(entry.diaryDetails.value);
    }
    ghost var withDate := block;
    if entry.rating.Some? {
      ghost var stars := " " + Repeat('★', entry.rating.value / 2);
      block := block + " " + Repeat('★', entry.rating.value / 2);
      Regroup(withDate, " ", Repeat('★', entry.rating.value / 2));
      if entry.rating.value % 2 == 1 {
        block := block + "½ ";
        Regroup(withDate, stars, "½ ");
      } else {
        assert stars + "" == stars;
      }
    }
    assert block == withDate + RatingPart(entry.rating);
    if entry.like {
      block := block + LikePart(true);
    }
    assert block == withDate + RatingPart(entry.rating) + LikePart(entry.like);
    if entry.diaryDetails.None? {
      return Err(KeyError);
    }
    var dd := entry.diaryDetails.value;
    if dd.rewatch {
      block := block + RewatchPart(dd);
    }
    assert block == withDate + RatingPart(entry.rating) + LikePart(entry.like) + RewatchPart(dd);
    if entry.review.Some? {
      block := block + ReviewPart(entry.review, md);
    }
    assert block == withDate + RatingPart(entry.rating) + LikePart(entry.like) + RewatchPart(dd) + ReviewPart(entry.review, md);
    block := block + "\n";
    r := Ok(block);
  }

  /** One turn of the loop: the text so far, the entry's block and the
      blocks still to come make up the whole text, or the entry's error is
      the whole text's. */
  lemma JoinedStep(rs: seq<Result<string>>, i: nat, description: string)
    requires i < |rs|
    requires Joined(rs) == PrependText(description, Joined(rs[i..]))
    ensures rs[i].Err? ==> Joined(rs) == Err(rs[i].error)
    ensures rs[i].Ok? ==> Joined(rs) == PrependText(description + rs[i].value, Joined(rs[i + 1..]))
  {
    var rest := rs[i..];
    assert rest[0] == rs[i] && rest[1..] == rs[i + 1..];
    var tail := Joined(rs[i + 1..]);
    assert Joined(rest) == match rs[i] case Err(e) => Err(e) case Ok(t) => PrependText(t, tail);
    if rs[i].Ok? && tail.Ok? {
      assert description + (rs[i].value + tail.value) == (description + rs[i].value) + tail.value;
    }
  }

  datatype DiaryEmbed = DiaryEmbed(description: string, thumbnail: Option<string>)

  /** Before the loop: nothing written yet, every block still to come. */
  lemma JoinedFromStart(rs: seq<Result<string>>)
    ensures Joined(rs) == PrependText("", Joined(rs[0..]))
  {
    assert rs[0..] == rs;
    match Joined(rs) {
      case Err(_) =>
      case Ok(s) => assert "" + s == s;
    }
  }

  /** After the loop: the text written is the whole text. */
  lemma JoinedAtEnd(rs: seq<Result<string>>, description: string)
    requires Joined(rs) == PrependText(description, Joined(rs[|rs|..]))
    ensures Joined(rs) == Ok(description)
  {
    assert rs[|rs|..] == [];
    assert description + "" == description;
  }

  /** One entry of the loop: fetched by its id, its film kept, its block
      written. */
  method FetchBlock(api: LogApi, md: Markdown, dids: seq<string>, i: nat) returns (film: DiaryFilm, text: Result<string>)
    requires i < |dids|
    ensures film == api(dids[i]).film
    ensures text == Texts(api, md, dids)[i]
  {
    var entry := api(dids[i]);
    film := entry.film;
    text := EntryBlock(entry, md);
  }

  /** The loop of `get_diary_embed`: each entry fetched in turn and its
      block appended to `description`; `film` is left holding the film of
      the last entry fetched. */
  method DescribeEntries(api: LogApi, md: Markdown, dids: seq<string>) returns (r: Result<string>, film: DiaryFilm)
    ensures r == Blocks(api, md, dids)
    ensures r.Ok? && dids != [] ==> film == api(Last(dids)).film
  {
    var description := "";
    film := DiaryFilm("", None, None);  // unbound in the source until an entry is fetched
    ghost var rs := Texts(api, md, dids);
    var i := 0;
    JoinedFromStart(rs);
    while i < |dids|
      invariant 0 <= i <= |dids|
      invariant Joined(rs) == PrependText(description, Joined(rs[i..]))
      invariant i > 0 ==> film == api(dids[i - 1]).film
    {
      var text;
      film, text := FetchBlock(api, md, dids, i);
      JoinedStep(rs, i, description);
      if text.Err? {
        return Err(text.error), film;
      }
      description := description + text.value;
      i := i + 1;
    }
    JoinedAtEnd(rs, description);
    r := Ok(description);
  }

  /** `get_diary_embed`: the entries' text, then the thumbnail from the film
      of the last entry fetched. With no ids that film was never bound. */
  method GetDiaryEmbed(api: LogApi, md: Markdown, dids: seq<string>) returns (r: Result<DiaryEmbed>)
    ensures dids == [] ==> r == Err(UnboundLocalError)
    ensures dids != [] && Blocks(api, md, dids).Err? ==> r == Err(Blocks(api, md, dids).error)
    ensures dids != [] && Blocks(api, md, dids).Ok? ==>
      match Thumbnail(api(Last(dids)).film)
      case Err(e) => r == Err(e)
      case Ok(t) => r == Ok(DiaryEmbed(Blocks(api, md, dids).value, t))
  {
    var description, film := DescribeEntries(api, md, dids);
    if description.Err? {
      return Err(description.error);
    }
    if dids == [] {
      return Err(UnboundLocalError);
    }
    var thumbnail := Thumbnail(film);
    if thumbnail.Err? {
      return Err(thumbnail.error);
    }
    r := Ok(DiaryEmbed(description.value, thumbnail.value));
  }
}
