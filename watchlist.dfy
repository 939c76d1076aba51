/** The film cog (`cogs/film.py`): choosing a member's list by name, the
    crew biography cut, syncing a watchlist page by page through the API
    cursor, and picking a random watchlist entry between two bounds. */
module FilmCog {
  import opened Common

  // ============================================================ list id

  /** One of a member's lists, as the API describes it. */
  datatype ListItem = ListItem(name: string, id: string)

  /** The fuzzy matcher's score of a candidate name against the query. */
  type Scorer = (string, string) -> int

  /** The keys of `{s['name']: s['id'] for s in items}`: each name once, in
      order of first appearance. */
  function DictKeys(items: seq<ListItem>): (ks: seq<string>)
    ensures forall i, j :: 0 <= i < j < |ks| ==> ks[i] != ks[j]
    decreases |items|
  {
    if items == [] then []
    else
      var prior := DictKeys(items[..|items| - 1]);
      if Last(items).name in prior then prior else prior + [Last(items).name]
  }

  lemma {:induction false} DictKeysOf(items: seq<ListItem>, name: string)
    ensures name in DictKeys(items) <==> exists k :: 0 <= k < |items| && items[k].name == name
    decreases |items|
  {
    if items != [] {
      var init := items[..|items| - 1];
      DictKeysOf(init, name);
      if exists k :: 0 <= k < |init| && init[k].name == name {
        var k :| 0 <= k < |init| && init[k].name == name;
        assert items[k].name == name;
      }
      if exists k :: 0 <= k < |items| && items[k].name == name {
        var k :| 0 <= k < |items| && items[k].name == name;
        if k < |init| {
          assert init[k].name == name;
        }
      }
    }
  }

  /** Keys come in order of first appearance: an earlier key occurs in the
      list before any occurrence of a later one. With `BestIndex` taking the
      first best score, a tie between two names goes to the one listed first. */
  lemma {:induction false} DictKeysOrder(items: seq<ListItem>, i: nat, j: nat)
    requires i < j < |DictKeys(items)|
    ensures exists p :: 0 <= p < |items| && items[p].name == DictKeys(items)[i] &&
                        (forall q :: 0 <= q <= p ==> items[q].name != DictKeys(items)[j])
    decreases |items|
  {
    var init := items[..|items| - 1];
    var prior := DictKeys(init);
    var ks := DictKeys(items);
    assert ks[..|prior|] == prior;
    if j < |prior| {
      DictKeysOrder(init, i, j);
      var p :| 0 <= p < |init| && init[p].name == prior[i] &&
               (forall q :: 0 <= q <= p ==> init[q].name != prior[j]);
      assert items[p].name == ks[i];
      forall q | 0 <= q <= p
        ensures items[q].name != ks[j]
      {
        assert items[q] == init[q];
      }
    } else {
      assert ks[j] == Last(items).name && Last(items).name !in prior;
      DictKeysOf(init, prior[i]);
      var p :| 0 <= p < |init| && init[p].name == prior[i];
      assert items[p].name == ks[i];
      forall q | 0 <= q <= p
        ensures items[q].name != ks[j]
      {
        DictKeysOf(init, ks[j]);
        assert items[q] == init[q];
      }
    }
  }

  /** The value the comprehension leaves under a name: the id of the last
      list with that name. */
  function DictValue(items: seq<ListItem>, name: string): (r: Option<string>)
    ensures r.Some? ==>
      exists k :: 0 <= k < |items| && items[k].name == name && items[k].id == r.value
        && forall j :: k < j < |items| ==> items[j].name != name
    ensures r.None? ==> forall k :: 0 <= k < |items| ==> items[k].name != name
    decreases |items|
  {
    if items == [] then None
    else if Last(items).name == name then Some(Last(items).id)
    else
      var r := DictValue(items[..|items| - 1], name);
      assert forall k :: 0 <= k < |items| - 1 ==> items[..|items| - 1][k] == items[k];
      r
  }

  /** `process.extractOne`: the index of the first best-scoring key. */
  function BestIndex(keys: seq<string>, score: string -> int): (i: nat)
    requires |keys| > 0
    ensures i < |keys|
    ensures forall j :: 0 <= j < |keys| ==> score(keys[j]) <= score(keys[i])
    ensures forall j :: 0 <= j < i ==> score(keys[j]) < score(keys[i])
    decreases |keys|
  {
    if |keys| == 1 then 0
    else
      var b := BestIndex(keys[..|keys| - 1], score);
      if score(keys[|keys| - 1]) > score(keys[b]) then |keys| - 1 else b
  }

  /** The score a match must exceed. */
  const MatchThreshold: int := 70

  /** `get_list_id`: the id stored under the best-matching name when its
      score exceeds 70, otherwise nothing. With no lists at all the matcher
      returns `None`, which the score lookup cannot subscript. */
  function GetListId(items: seq<ListItem>, scorer: Scorer, keywords: string): Result<Option<string>> {
    var keys := DictKeys(items);
    if keys == [] then Err(TypeError)
    else
      var best := keys[BestIndex(keys, name => scorer(keywords, name))];
      if scorer(keywords, best) > MatchThreshold then Ok(DictValue(items, best)) else Ok(None)
  }

  /** The comprehension has no keys exactly when there are no lists. */
  lemma DictKeysEmpty(items: seq<ListItem>)
    ensures DictKeys(items) == [] <==> items == []
  {
    if items != [] {
      DictKeysOf(items, items[0].name);
    }
  }

  /** The best key scores at least as well as the name of every list. */
  lemma BestKeyDominates(items: seq<ListItem>, score: string -> int)
    requires DictKeys(items) != []
    ensures var keys := DictKeys(items);
      forall j :: 0 <= j < |items| ==> score(items[j].name) <= score(keys[BestIndex(keys, score)])
  {
    var keys := DictKeys(items);
    var b := BestIndex(keys, score);
    forall j | 0 <= j < |items| ensures score(items[j].name) <= score(keys[b]) {
      DictKeysOf(items, items[j].name);
      var m :| 0 <= m < |keys| && keys[m] == items[j].name;
    }
  }

  /** A list is returned exactly when some list name scores above 70; it is
      the last list carrying a best-scoring name, and no name scores
      higher. */
  lemma GetListIdChoice(items: seq<ListItem>, scorer: Scorer, keywords: string)
    ensures GetListId(items, scorer, keywords).Err? <==> items == []
    ensures GetListId(items, scorer, keywords) == Ok(None) <==>
      items != [] && forall k :: 0 <= k < |items| ==> scorer(keywords, items[k].name) <= MatchThreshold
    ensures GetListId(items, scorer, keywords).Ok? && GetListId(items, scorer, keywords).value.Some? ==>
      exists k :: 0 <= k < |items| && items[k].id == GetListId(items, scorer, keywords).value.value
        && scorer(keywords, items[k].name) > MatchThreshold
        && (forall j :: 0 <= j < |items| ==> scorer(keywords, items[j].name) <= scorer(keywords, items[k].name))
        && (forall j :: k < j < |items| ==> items[j].name != items[k].name)
  {
    DictKeysEmpty(items);
    var keys := DictKeys(items);
    if keys != [] {
      var score := name => scorer(keywords, name);
      var best := keys[BestIndex(keys, score)];
      BestKeyDominates(items, score);
      DictKeysOf(items, best);
      var d := DictValue(items, best);
      assert d.Some?;
      if scorer(keywords, best) <= MatchThreshold {
        assert forall k :: 0 <= k < |items| ==> scorer(keywords, items[k].name) <= MatchThreshold;
      } else {
        var k :| 0 <= k < |items| && items[k].name == best && items[k].id == d.value
          && forall j :: k < j < |items| ==> items[j].name != best;
        assert scorer(keywords, items[k].name) > MatchThreshold;
      }
    }
  }

  // ================================================================ bio

  /** `s.split('::', 1)[0]`: the text before the first `::`. */
  function BeforeSeparator(s: string): (r: string)
    ensures |r| <= |s| && r == s[..|r|]
    decreases |s|
  {
    if |s| < 2 then s
    else if s[0] == ':' && s[1] == ':' then ""
    else [s[0]] + BeforeSeparator(s[1..])
  }

  predicate SeparatorAt(s: string, i: int) {
    0 <= i && i + 1 < |s| && s[i] == ':' && s[i + 1] == ':'
  }

  /** The cut is at the first `::`: none starts before it, and one starts at
      it unless the whole text is kept. */
  lemma {:induction false} BeforeSeparatorIsFirst(s: string)
    ensures forall i :: 0 <= i < |BeforeSeparator(s)| ==> !SeparatorAt(s, i)
    ensures |BeforeSeparator(s)| < |s| ==> SeparatorAt(s, |BeforeSeparator(s)|)
    decreases |s|
  {
    if |s| >= 2 && !(s[0] == ':' && s[1] == ':') {
      BeforeSeparatorIsFirst(s[1..]);
      forall i | 0 <= i < |BeforeSeparator(s)| ensures !SeparatorAt(s, i) {
        if i > 0 {
          assert SeparatorAt(s, i) ==> SeparatorAt(s[1..], i - 1);
        }
      }
      if |BeforeSeparator(s)| < |s| {
        assert SeparatorAt(s[1..], |BeforeSeparator(s[1..])|);
      }
    }
  }

  /** How much of the biography the short form keeps. */
  const ShortBio: nat := 250

  /** The biography block of `get_crew_embed`: the first biography cut at
      `::` between code fences, shortened to its first 250 characters and
      `...` at the lowest verbosity; nothing without a biography;
      `IndexError` for an empty list of biographies. */
  function BioBlock(miniBiography: Option<seq<string>>, verbosity: int): (r: Result<string>)
    ensures miniBiography.None? ==> r == Ok("")
    ensures miniBiography.Some? ==> (r.Err? <==> miniBiography.value == [])
    ensures r.Ok? && miniBiography.Some? ==>
      var bio := BeforeSeparator(miniBiography.value[0]);
      && |r.value| >= 6 && r.value[..3] == "```" && r.value[|r.value| - 3..] == "```"
      && var shown := r.value[3..|r.value| - 3];
      && (verbosity == 0 ==>
        && |shown| == (if |bio| <= ShortBio then |bio| else ShortBio) + 3
        && shown[|shown| - 3..] == "..." && shown[..|shown| - 3] == bio[..|shown| - 3])
      && (verbosity != 0 ==> shown == bio)
  {
    match miniBiography
    case None => Ok("")
    case Some(bios) =>
      if bios == [] then Err(IndexError)
      else
        var bio := BeforeSeparator(bios[0]);
        Ok("```" + (if verbosity == 0 then (if |bio| <= ShortBio then bio else bio[..ShortBio]) + "..." else bio) + "```")
  }

  // ============================================================== wsync

  /** The member's watchlist page: its HTTP status and, when it has one, the
      markup of its first `span.watchlist-count`. */
  datatype WatchlistPage = WatchlistPage(status: int, countSpan: Option<string>)

  /** One API watchlist response: the film ids and the cursor of the next
      page, when the response has one. */
  datatype WatchlistResponse = WatchlistResponse(items: seq<string>, next: Option<string>)

  /** The watchlist endpoint, by cursor (`None` for the first request). */
  type WatchlistApi = Option<string> -> WatchlistResponse

  /** The non-breaking space (U+00A0) that ends the count on the page. */
  const NoBreakSpace: char := '\U{00A0}'

  /** The count read from the page: the span's text after its first `>`, up
      to the first non-breaking space, without commas. */
  function WatchlistCount(page: WatchlistPage): Result<int> {
    match page.countSpan
    case None => Err(IndexError)
    case Some(span) =>
      var parts := Split(span, '>');
      if |parts| < 2 then Err(IndexError)
      else match ParseInt(RemoveChar(Split(parts[1], NoBreakSpace)[0], ','))
        case None => Err(ValueError)
        case Some(n) => Ok(n)
  }

  /** A count written plainly in the span is read back exactly. */
  lemma WatchlistCountReads(n: nat, before: string, after: string)
    requires '>' !in before && '>' !in after && NoBreakSpace !in after
    ensures WatchlistCount(WatchlistPage(200, Some(before + ">" + NatToString(n) + [NoBreakSpace] + after))).Ok?
    ensures WatchlistCount(WatchlistPage(200, Some(before + ">" + NatToString(n) + [NoBreakSpace] + after))).value == n
  {
    var digits := NatToString(n);
    var span := before + ">" + digits + [NoBreakSpace] + after;
    assert '>' !in digits && NoBreakSpace !in digits && ',' !in digits;
    assert span == before + ['>'] + (digits + [NoBreakSpace] + after);
    SplitAround(before, '>', digits + [NoBreakSpace] + after);
    assert '>' !in digits + [NoBreakSpace] + after;
    SplitNone(digits + [NoBreakSpace] + after, '>');
    assert digits + [NoBreakSpace] + after == digits + [NoBreakSpace] + after;
    SplitAround(digits, NoBreakSpace, after);
    DigitsValueOfNatToString(n);
  }

  /** The follow-up requests: while fewer than `wsize` ids are counted as
      added, request the next page by the previous response's cursor
      (`KeyError` when it has none) and count 100 more. */
  function FollowUps(api: WatchlistApi, prev: WatchlistResponse, added: int, wsize: int): Result<seq<string>>
    decreases wsize - added
  {
    if added >= wsize then Ok([])
    else match prev.next
      case None => Err(KeyError)
      case Some(cursor) =>
        var w := api(Some(cursor));
        match FollowUps(api, w, added + 100, wsize)
        case Err(e) => Err(e)
        case Ok(rest) => Ok(w.items + rest)
  }

  /** How many follow-up requests are made. */
  function FollowUpCount(added: int, wsize: int): nat
    decreases wsize - added
  {
    if added >= wsize then 0 else 1 + FollowUpCount(added + 100, wsize)
  }

  /** The number of follow-up requests is the shortfall in hundreds,
      rounded up. */
  lemma {:induction false} FollowUpCountIs(added: int, wsize: int)
    ensures FollowUpCount(added, wsize) == if added >= wsize then 0 else (wsize - added + 99) / 100
    decreases wsize - added
  {
    if added < wsize {
      FollowUpCountIs(added + 100, wsize);
    }
  }

  /** The pagination loop of `wsync`: the first page's ids followed by each
      follow-up page's ids in request order; no ids means nothing to sync. */
  method FetchWatchlist(api: WatchlistApi, wsize: int) returns (r: Result<Option<seq<string>>>)
    ensures api(None).items == [] ==> r == Ok(None)
    ensures api(None).items != [] ==>
      r == match FollowUps(api, api(None), |api(None).items|, wsize)
           case Ok(rest) => Ok(Some(api(None).items + rest))
           case Err(e) => Err(e)
  {
    var watchlist := api(None);
    var filmIds := watchlist.items;
    if watchlist.items == [] {
      return Ok(None);
    }
    var added := |watchlist.items|;
    while added < wsize
      invariant
        match FollowUps(api, api(None), |api(None).items|, wsize)
        case Ok(all) => FollowUps(api, watchlist, added, wsize).Ok? && api(None).items + all == filmIds + FollowUps(api, watchlist, added, wsize).value
        case Err(e) => FollowUps(api, watchlist, added, wsize) == Err(e)
      decreases wsize - added
    {
      added := added + 100;
      if watchlist.next.None? {
        return Err(KeyError);
      }
      var cursor := watchlist.next;
      ghost var prev := watchlist;
      watchlist := api(cursor);
      match FollowUps(api, watchlist, added, wsize) {
        case Err(_) =>
        case Ok(rest) => assert filmIds + (watchlist.items + rest) == (filmIds + watchlist.items) + rest;
      }
      filmIds := filmIds + watchlist.items;
    }
    assert filmIds + [] == filmIds;
    r := Ok(Some(filmIds));
  }

  /** A member's watchlist record as `wsync` writes it and `wrand` reads it. */
  datatype Member = Member(uid: int, lid: string, wlist: Option<seq<string>>, wsize: Option<int>)

  /** The position of the first member with the list id. */
  function LidIndex(members: seq<Member>, lid: string): (r: Option<nat>)
    ensures r.Some? ==> r.value < |members| && members[r.value].lid == lid
    ensures r.Some? ==> forall j :: 0 <= j < r.value ==> members[j].lid != lid
    ensures r.None? ==> forall k :: 0 <= k < |members| ==> members[k].lid != lid
  {
    if members == [] then None
    else if members[0].lid == lid then Some(0)
    else match LidIndex(members[1..], lid)
      case None => None
      case Some(i) => Some(i + 1)
  }

  /** `update_one({'lid': lid}, {'$set': {'wlist': ..., 'wsize': ...}})`:
      the first member with that id is updated; no member, no change. */
  function SetWatchlist(members: seq<Member>, lid: string, wlist: seq<string>, wsize: int): (r: seq<Member>)
    ensures |r| == |members|
    ensures forall k :: 0 <= k < |members| && members[k].lid != lid ==> r[k] == members[k]
    ensures LidIndex(members, lid).None? ==> r == members
    ensures LidIndex(members, lid).Some? ==>
      var i := LidIndex(members, lid).value;
      r == members[i := members[i].(wlist := Some(wlist), wsize := Some(wsize))]
    decreases |members|
  {
    if members == [] then []
    else if members[0].lid == lid then [members[0].(wlist := Some(wlist), wsize := Some(wsize))] + members[1..]
    else
      var rest := SetWatchlist(members[1..], lid, wlist, wsize);
      assert members == [members[0]] + members[1..];
      [members[0]] + rest
  }

  /** The store the watchlist commands use. */
  class WatchStore {
    var members: seq<Member>

    constructor(members: seq<Member>)
      ensures this.members == members
    {
      this.members := members;
    }
  }

  datatype WsyncReply =
    | NoMember        // no Letterboxd id on record for the author
    | NeedSize        // the page failed and no size was given
    | PrivateOrEmpty  // the API lists nothing
    | Synced(wlist: seq<string>, wsize: int)

  /** The size `wsync` works with, as written: unless it stops for a missing
      size, it always reads the count from the page, so a size given by the
      member is never used, and a failed page has no count to read. */
  function WatchlistSize(page: WatchlistPage, wsizeArg: string): Result<int>
    requires !(page.status >= 400 && wsizeArg == "")
  {
    WatchlistCount(page)
  }

  /** The size as evidently intended: the member's size when the page
      failed, the page's count otherwise. */
  function WatchlistSizeIntended(page: WatchlistPage, wsizeArg: string): Result<int>
    requires !(page.status >= 400 && wsizeArg == "")
  {
    if page.status >= 400 then
      match ParseInt(wsizeArg) case None => Err(ValueError) case Some(n) => Ok(n)
    else WatchlistCount(page)
  }

  /** The given size makes no difference to the written size rule, and on a
      failed page without a count span it raises `IndexError` where the
      intended rule uses the given 250. */
  lemma GivenSizeIgnored(page: WatchlistPage, a: string, b: string)
    requires a != "" && b != ""
    ensures WatchlistSize(page, a) == WatchlistSize(page, b)
    ensures WatchlistSize(WatchlistPage(404, None), "250") == Err(IndexError)
    ensures WatchlistSizeIntended(WatchlistPage(404, None), "250") == Ok(250)
    ensures page.status < 400 ==> WatchlistSizeIntended(page, a) == WatchlistSize(page, a)
  {
    assert IsDigits("250");
    assert DigitsValue("250") == 250 by {
      assert "250"[..2] == "25" && "25"[..1] == "2" && "2"[..0] == "";
    }
  }

  /** `wsync` as written. */
  method Wsync(store: WatchStore, lid: string, page: WatchlistPage, wsizeArg: string, api: WatchlistApi) returns (r: Result<WsyncReply>)
    modifies store
    ensures lid == "" ==> r == Ok(NoMember)
    ensures lid != "" && page.status >= 400 && wsizeArg == "" ==> r == Ok(NeedSize)
    ensures r.Ok? && r.value.Synced? ==>
      && !(page.status >= 400 && wsizeArg == "")
      && WatchlistSize(page, wsizeArg) == Ok(r.value.wsize)
      && FetchedIds(api, r.value.wsize) == Ok(Some(r.value.wlist))
      && store.members == SetWatchlist(old(store.members), lid, r.value.wlist, r.value.wsize)
    ensures !(r.Ok? && r.value.Synced?) ==> store.members == old(store.members)
    ensures lid != "" && !(page.status >= 400 && wsizeArg == "") ==>
      match WatchlistSize(page, wsizeArg)
      case Err(e) => r == Err(e)
      case Ok(n) =>
        && r.Ok? == FetchedIds(api, n).Ok?
        && (r == Ok(PrivateOrEmpty) <==> FetchedIds(api, n) == Ok(None))
        && (FetchedIds(api, n).Ok? && FetchedIds(api, n).value.Some? ==> r == Ok(Synced(FetchedIds(api, n).value.value, n)))
  {
    if lid == "" {
      return Ok(NoMember);
    }
    if page.status >= 400 && wsizeArg == "" {
      return Ok(NeedSize);
    }
    var wsize := WatchlistSize(page, wsizeArg);
    if wsize.Err? {
      return Err(wsize.error);
    }
    r := Store(store, lid, api, wsize.value);
  }

  /** `wsync` with the intended size rule. */
  method WsyncIntended(store: WatchStore, lid: string, page: WatchlistPage, wsizeArg: string, api: WatchlistApi) returns (r: Result<WsyncReply>)
    modifies store
    ensures lid == "" ==> r == Ok(NoMember)
    ensures lid != "" && page.status >= 400 && wsizeArg == "" ==> r == Ok(NeedSize)
    ensures r.Ok? && r.value.Synced? ==>
      && !(page.status >= 400 && wsizeArg == "")
      && WatchlistSizeIntended(page, wsizeArg) == Ok(r.value.wsize)
      && FetchedIds(api, r.value.wsize) == Ok(Some(r.value.wlist))
      && store.members == SetWatchlist(old(store.members), lid, r.value.wlist, r.value.wsize)
    ensures !(r.Ok? && r.value.Synced?) ==> store.members == old(store.members)
    ensures lid != "" && !(page.status >= 400 && wsizeArg == "") ==>
      match WatchlistSizeIntended(page, wsizeArg)
      case Err(e) => r == Err(e)
      case Ok(n) =>
        && r.Ok? == FetchedIds(api, n).Ok?
        && (r == Ok(PrivateOrEmpty) <==> FetchedIds(api, n) == Ok(None))
        && (FetchedIds(api, n).Ok? && FetchedIds(api, n).value.Some? ==> r == Ok(Synced(FetchedIds(api, n).value.value, n)))
  {
    if lid == "" {
      return Ok(NoMember);
    }
    if page.status >= 400 && wsizeArg == "" {
      return Ok(NeedSize);
    }
    var wsize := WatchlistSizeIntended(page, wsizeArg);
    if wsize.Err? {
      return Err(wsize.error);
    }
    r := Store(store, lid, api, wsize.value);
  }

  /** The ids the pagination loop collects for a size. */
  function FetchedIds(api: WatchlistApi, wsize: int): Result<Option<seq<string>>> {
    if api(None).items == [] then Ok(None)
    else match FollowUps(api, api(None), |api(None).items|, wsize)
      case Ok(rest) => Ok(Some(api(None).items + rest))
      case Err(e) => Err(e)
  }

  /** The common tail of both versions: fetch, then write the list and its
      size. */
  method Store(store: WatchStore, lid: string, api: WatchlistApi, wsize: int) returns (r: Result<WsyncReply>)
    modifies store
    ensures r.Ok? == FetchedIds(api, wsize).Ok?
    ensures r == Ok(PrivateOrEmpty) <==> FetchedIds(api, wsize) == Ok(None)
    ensures r.Ok? && r.value.Synced? ==>
      && FetchedIds(api, wsize) == Ok(Some(r.value.wlist)) && r.value.wsize == wsize
      && store.members == SetWatchlist(old(store.members), lid, r.value.wlist, wsize)
    ensures !(r.Ok? && r.value.Synced?) ==> store.members == old(store.members)
    ensures FetchedIds(api, wsize).Ok? && FetchedIds(api, wsize).value.Some? ==>
      r == Ok(Synced(FetchedIds(api, wsize).value.value, wsize))
  {
    var ids := FetchWatchlist(api, wsize);
    if ids.Err? {
      return Err(ids.error);
    }
    if ids.value.None? {
      return Ok(PrivateOrEmpty);
    }
    store.members := SetWatchlist(store.members, lid, ids.value.value, wsize);
    r := Ok(Synced(ids.value.value, wsize));
  }

  /** A watchlist no longer than the first page needs no follow-up request:
      its ids are the first page's. */
  lemma ShortWatchlist(api: WatchlistApi, wsize: int)
    requires api(None).items != [] && wsize <= |api(None).items|
    ensures FetchedIds(api, wsize) == Ok(Some(api(None).items))
  {
    assert api(None).items + [] == api(None).items;
  }

  // ============================================================== wrand

  /** Python's `xs[i]`, negative indices counting from the end. */
  function PyIndex<T>(s: seq<T>, i: int): (r: Result<T>)
    ensures r.Ok? <==> -|s| <= i < |s|
    ensures 0 <= i < |s| ==> r == Ok(s[i])
    ensures -|s| <= i < 0 ==> r == Ok(s[|s| + i])
  {
    if 0 <= i < |s| then Ok(s[i])
    else if -|s| <= i < 0 then Ok(s[|s| + i])
    else Err(IndexError)
  }

  function FindMember(members: seq<Member>, uid: int): (r: Option<Member>)
    ensures r.Some? ==> r.value in members && r.value.uid == uid
    ensures r.Some? ==> exists k :: 0 <= k < |members| && members[k] == r.value &&
                                (forall j :: 0 <= j < k ==> members[j].uid != uid)
    ensures r.None? ==> forall k :: 0 <= k < |members| ==> members[k].uid != uid
  {
    if members == [] then None
    else if members[0].uid == uid then Some(members[0])
    else FindMember(members[1..], uid)
  }

  /** The range `wrand` draws from once `start` and `end` are clamped to the
      stored size: the start falls below the size, the end never exceeds
      it, and the defaults (0, 0) cover the whole list. */
  function WrandRange(start: int, end: int, wsize: int): (r: (int, int))
    ensures r.0 < wsize && r.1 <= wsize
    ensures start < wsize ==> r.0 == start
    ensures 0 < end <= wsize ==> r.1 == end
    ensures start == 0 && end == 0 && wsize > 0 ==> r == (0, wsize)
    ensures start >= wsize ==> r.0 == wsize - 1
    ensures end == 0 || end > wsize ==> r.1 == wsize
  {
    (if start >= wsize then wsize - 1 else start, if end == 0 || end > wsize then wsize else end)
  }

  datatype WrandReply = RunWsyncFirst | Picked(filmId: string)

  /** The index `random.randrange(lo, hi)` draws, for the caller's random
      number `pick`; every index of a non-empty range is drawn by some pick. */
  function Draw(lo: int, hi: int, pick: nat): (i: int)
    requires lo < hi
    ensures lo <= i < hi
    ensures pick < hi - lo ==> i == lo + pick
  {
    lo + pick % (hi - lo)
  }

  /** `wrand`: with the member's stored list, clamp the bounds and draw an
      index from `[start, end)`. A member who is not followed makes the
      `'wlist' in user` test fail on `None`. */
  method Wrand(store: WatchStore, uid: int, start: int, end: int, pick: nat) returns (r: Result<WrandReply>)
    ensures FindMember(store.members, uid).None? ==> r == Err(TypeError)
    ensures FindMember(store.members, uid).Some? && FindMember(store.members, uid).value.wlist.None? ==> r == Ok(RunWsyncFirst)
    ensures r.Ok? && r.value.Picked? ==>
      var user := FindMember(store.members, uid).value;
      && user.wlist.Some? && user.wsize.Some?
      && var (lo, hi) := WrandRange(start, end, user.wsize.value);
      exists i :: lo <= i < hi && PyIndex(user.wlist.value, i) == Ok(r.value.filmId)
    ensures FindMember(store.members, uid).Some? && FindMember(store.members, uid).value.wlist.Some? ==>
      var user := FindMember(store.members, uid).value;
      && (user.wsize.None? ==> r == Err(KeyError))
      && (user.wsize.Some? && WrandRange(start, end, user.wsize.value).0 >= WrandRange(start, end, user.wsize.value).1 ==> r == Err(ValueError))
      && (user.wsize.Some? && WrandRange(start, end, user.wsize.value).0 < WrandRange(start, end, user.wsize.value).1 ==>
        var (lo, hi) := WrandRange(start, end, user.wsize.value);
        match PyIndex(user.wlist.value, Draw(lo, hi, pick))
        case Ok(f) => r == Ok(Picked(f))
        case Err(e) => r == Err(e))
  {
    var user := FindMember(store.members, uid);
    if user.None? {
      return Err(TypeError);
    }
    if user.value.wlist.None? {
      return Ok(RunWsyncFirst);
    }
    if user.value.wsize.None? {
      return Err(KeyError);
    }
    var wsize := user.value.wsize.value;
    var start, end := start, end;
    if start >= wsize {
      start := wsize - 1;
    }
    if end == 0 || end > wsize {
      end := wsize;
    }
    if start >= end {
      return Err(ValueError);
    }
    var i := Draw(start, end, pick);
    var film := PyIndex(user.value.wlist.value, i);
    if film.Err? {
      return Err(film.error);
    }
    r := Ok(Picked(film.value));
  }

  /** On a list synced with its true size and a start that is not
      negative, `wrand` with an end of 0 or beyond the start always picks an
      entry of the list. */
  lemma WrandPicksFromList(wlist: seq<string>, start: int, end: int, i: int)
    requires |wlist| >= 1 && 0 <= start && (end == 0 || end > start)
    requires var (lo, hi) := WrandRange(start, end, |wlist|); lo <= i < hi
    ensures WrandRange(start, end, |wlist|).0 < WrandRange(start, end, |wlist|).1
    ensures PyIndex(wlist, i).Ok? && PyIndex(wlist, i).value == wlist[i]
  {
  }
}
