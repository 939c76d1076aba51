/** The documents of one guild's database (`users`, `ratings`, `films`), the
    keyed upserts the bot performs on them, and the per-film aggregate that the
    statistics are recomputed from.

    A collection is a sequence of documents in natural (insertion) order, which
    is the order an unsorted `find` returns them in. An upsert replaces the
    first document whose key matches, or appends a new one. */
module Docs {
  import opened Common

  // ================================================================ ratings

  /** A `ratings` document. It holds exactly the scraped record (its `$set`
      covers every field), so record and document are one type. `ratingId` is
      the half-star tier (possibly scaled by 1.25) or `Unrated`. */
  datatype Rating = Rating(movieId: string, ratingId: real, lbId: string)

  /** The "watched, not rated" sentinel. */
  const Unrated: real := -1.0

  /** Ratings are keyed by the pair (Letterboxd handle, film slug). */
  type Key = (string, string)

  function KeyOf(r: Rating): Key { (r.lbId, r.movieId) }

  /** Index of the first document with key `k`. */
  function FirstIndex(docs: seq<Rating>, k: Key): (r: Option<nat>)
    ensures r.Some? ==> r.value < |docs| && KeyOf(docs[r.value]) == k
    ensures r.Some? ==> forall j :: 0 <= j < r.value ==> KeyOf(docs[j]) != k
    ensures r.None? ==> forall j :: 0 <= j < |docs| ==> KeyOf(docs[j]) != k
  {
    if docs == [] then None
    else if KeyOf(docs[0]) == k then Some(0)
    else match FirstIndex(docs[1..], k)
      case None => None
      case Some(i) => Some(i + 1)
  }

  /** `find_one` by key. */
  function Lookup(docs: seq<Rating>, k: Key): Option<Rating> {
    match FirstIndex(docs, k)
    case None => None
    case Some(i) => Some(docs[i])
  }

  /** `UpdateOne({lb_id, movie_id}, {$set: r}, upsert=True)`. */
  function Upsert(docs: seq<Rating>, r: Rating): seq<Rating> {
    match FirstIndex(docs, KeyOf(r))
    case Some(i) => docs[i := r]
    case None => docs + [r]
  }

  /** A bulk write of upserts, applied in list order. */
  function UpsertAll(docs: seq<Rating>, ops: seq<Rating>): seq<Rating>
    decreases |ops|
  {
    if ops == [] then docs else UpsertAll(Upsert(docs, ops[0]), ops[1..])
  }

  predicate HasKey(ops: seq<Rating>, k: Key) {
    exists j :: 0 <= j < |ops| && KeyOf(ops[j]) == k
  }

  /** The last operation in `ops` for key `k`: the one whose value survives. */
  function LastWrite(ops: seq<Rating>, k: Key): (r: Rating)
    requires HasKey(ops, k)
    ensures KeyOf(r) == k
  {
    if HasKey(ops[1..], k) then LastWrite(ops[1..], k)
    else
      assert forall j :: 1 <= j < |ops| ==> KeyOf(ops[j]) != k by {
        forall j | 1 <= j < |ops| ensures KeyOf(ops[j]) != k { assert ops[1..][j - 1] == ops[j]; }
      }
      ops[0]
  }

  /** At most one document per key: the invariant the upsert exists to keep. */
  predicate UniqueKeys(docs: seq<Rating>) {
    forall i, j :: 0 <= i < j < |docs| ==> KeyOf(docs[i]) != KeyOf(docs[j])
  }

  lemma FirstIndexIs(docs: seq<Rating>, k: Key, i: nat)
    requires i < |docs| && KeyOf(docs[i]) == k
    requires forall j :: 0 <= j < i ==> KeyOf(docs[j]) != k
    ensures FirstIndex(docs, k) == Some(i)
  {
  }

  /** Looking a key up after one upsert. */
  lemma LookupUpsert(docs: seq<Rating>, r: Rating, k: Key)
    ensures Lookup(Upsert(docs, r), k) == if KeyOf(r) == k then Some(r) else Lookup(docs, k)
  {
    var u := Upsert(docs, r);
    match FirstIndex(docs, KeyOf(r))
    case Some(i) =>
      if KeyOf(r) == k {
        FirstIndexIs(u, k, i);
      } else if FirstIndex(docs, k).Some? {
        FirstIndexIs(u, k, FirstIndex(docs, k).value);
      }
    case None =>
      if KeyOf(r) == k {
        FirstIndexIs(u, k, |docs|);
      } else if FirstIndex(docs, k).Some? {
        FirstIndexIs(u, k, FirstIndex(docs, k).value);
      }
  }

  /** After a bulk upsert a key re-scraped in `ops` holds the last value
      written for it, and every other key holds what it held before (or is
      still absent). */
  lemma {:induction false} LookupUpsertAll(docs: seq<Rating>, ops: seq<Rating>, k: Key)
    ensures Lookup(UpsertAll(docs, ops), k) == if HasKey(ops, k) then Some(LastWrite(ops, k)) else Lookup(docs, k)
    decreases |ops|
  {
    if ops != [] {
      LookupUpsertAll(Upsert(docs, ops[0]), ops[1..], k);
      LookupUpsert(docs, ops[0], k);
      if !HasKey(ops[1..], k) && KeyOf(ops[0]) != k {
        forall j | 0 <= j < |ops| ensures KeyOf(ops[j]) != k {
          if j > 0 { assert ops[1..][j - 1] == ops[j]; }
        }
      }
      if HasKey(ops[1..], k) {
        var j :| 0 <= j < |ops[1..]| && KeyOf(ops[1..][j]) == k;
        assert KeyOf(ops[j + 1]) == k;
      }
    }
  }

  /** A bulk upsert never moves or changes a document whose key it does not
      write: rows not scraped are untouched, in place. */
  lemma {:induction false} UpsertAllKeepsUntouched(docs: seq<Rating>, ops: seq<Rating>, i: nat)
    requires i < |docs| && !HasKey(ops, KeyOf(docs[i]))
    ensures i < |UpsertAll(docs, ops)| && UpsertAll(docs, ops)[i] == docs[i]
    decreases |ops|
  {
    if ops != [] {
      var u := Upsert(docs, ops[0]);
      assert KeyOf(ops[0]) != KeyOf(docs[i]);
      assert u[i] == docs[i];
      assert !HasKey(ops[1..], KeyOf(docs[i])) by {
        forall j | 0 <= j < |ops[1..]| ensures KeyOf(ops[1..][j]) != KeyOf(docs[i]) { assert ops[1..][j] == ops[j + 1]; }
      }
      UpsertAllKeepsUntouched(u, ops[1..], i);
    }
  }

  /** The upsert keeps the store free of duplicate keys. */
  lemma {:induction false} UpsertAllKeepsUniqueKeys(docs: seq<Rating>, ops: seq<Rating>)
    requires UniqueKeys(docs)
    ensures UniqueKeys(UpsertAll(docs, ops))
    decreases |ops|
  {
    if ops != [] {
      var u := Upsert(docs, ops[0]);
      assert UniqueKeys(u) by {
        match FirstIndex(docs, KeyOf(ops[0]))
        case Some(i) =>
          forall a, b | 0 <= a < b < |u| ensures KeyOf(u[a]) != KeyOf(u[b]) {
            assert KeyOf(u[a]) == KeyOf(docs[a]) && KeyOf(u[b]) == KeyOf(docs[b]);
          }
        case None =>
      }
      UpsertAllKeepsUniqueKeys(u, ops[1..]);
    }
  }

  /** Two sequences of documents with the same keys at the same positions. */
  predicate SameKeys(a: seq<Rating>, b: seq<Rating>) {
    |a| == |b| && forall i :: 0 <= i < |a| ==> KeyOf(a[i]) == KeyOf(b[i])
  }

  lemma SameKeysFirstIndex(a: seq<Rating>, b: seq<Rating>, k: Key)
    requires SameKeys(a, b)
    ensures FirstIndex(a, k) == FirstIndex(b, k)
  {
    match FirstIndex(a, k)
    case Some(i) => FirstIndexIs(b, k, i);
    case None =>
  }

  /** What a bulk upsert does to a store that already holds every key it
      writes: each key's first document becomes that key's last write. */
  function Overwritten(docs: seq<Rating>, ops: seq<Rating>): seq<Rating> {
    seq(|docs|, i requires 0 <= i < |docs| =>
      if HasKey(ops, KeyOf(docs[i])) && FirstIndex(docs, KeyOf(docs[i])) == Some(i)
      then LastWrite(ops, KeyOf(docs[i])) else docs[i])
  }

  lemma {:induction false} UpsertAllWhenPresent(docs: seq<Rating>, ops: seq<Rating>)
    requires forall j :: 0 <= j < |ops| ==> FirstIndex(docs, KeyOf(ops[j])).Some?
    ensures UpsertAll(docs, ops) == Overwritten(docs, ops)
    decreases |ops|
  {
    if ops == [] {
      assert Overwritten(docs, ops) == docs;
    } else {
      var r, rest := ops[0], ops[1..];
      var i0 := FirstIndex(docs, KeyOf(r)).value;
      var d1 := docs[i0 := r];
      assert Upsert(docs, r) == d1;
      assert SameKeys(docs, d1);
      forall j | 0 <= j < |rest| ensures FirstIndex(d1, KeyOf(rest[j])).Some? {
        assert rest[j] == ops[j + 1];
        SameKeysFirstIndex(docs, d1, KeyOf(rest[j]));
      }
      UpsertAllWhenPresent(d1, rest);
      OverwrittenFirst(docs, ops);
    }
  }

  /** Overwriting the first write's document in place, then the rest, is
      overwriting with the whole batch. */
  lemma OverwrittenFirst(docs: seq<Rating>, ops: seq<Rating>)
    requires ops != [] && FirstIndex(docs, KeyOf(ops[0])).Some?
    ensures Overwritten(docs[FirstIndex(docs, KeyOf(ops[0])).value := ops[0]], ops[1..]) == Overwritten(docs, ops)
  {
    var r, rest := ops[0], ops[1..];
    var d1 := docs[FirstIndex(docs, KeyOf(r)).value := r];
    assert SameKeys(docs, d1);
    forall i | 0 <= i < |docs| ensures Overwritten(d1, rest)[i] == Overwritten(docs, ops)[i] {
      var k := KeyOf(docs[i]);
      SameKeysFirstIndex(docs, d1, k);
      assert HasKey(ops, KeyOf(r)) by { assert KeyOf(ops[0]) == KeyOf(r); }
      if HasKey(rest, k) {
        var j :| 0 <= j < |rest| && KeyOf(rest[j]) == k;
        assert KeyOf(ops[j + 1]) == k;
      }
    }
  }

  /** Running the same bulk upsert twice leaves the store exactly as running
      it once: a full resync of unchanged data changes nothing. */
  lemma UpsertAllIdempotent(docs: seq<Rating>, ops: seq<Rating>)
    ensures UpsertAll(UpsertAll(docs, ops), ops) == UpsertAll(docs, ops)
  {
    var t := UpsertAll(docs, ops);
    forall j | 0 <= j < |ops| ensures FirstIndex(t, KeyOf(ops[j])).Some? {
      assert HasKey(ops, KeyOf(ops[j]));
      LookupUpsertAll(docs, ops, KeyOf(ops[j]));
    }
    UpsertAllWhenPresent(t, ops);
    forall i | 0 <= i < |t| ensures Overwritten(t, ops)[i] == t[i] {
      LookupUpsertAll(docs, ops, KeyOf(t[i]));
    }
  }

  // ============================================================= aggregate

  /** The rating values of the rows for one film, in scan order
      (`ratings.find({'movie_id': m})`). */
  function RowValues(docs: seq<Rating>, movieId: string): (vs: seq<real>)
    ensures |vs| <= |docs|
  {
    if docs == [] then []
    else (if docs[0].movieId == movieId then [docs[0].ratingId] else []) + RowValues(docs[1..], movieId)
  }

  function RatedCount(vs: seq<real>): nat {
    if vs == [] then 0 else (if vs[0] != Unrated then 1 else 0) + RatedCount(vs[1..])
  }

  function UnratedCount(vs: seq<real>): nat {
    if vs == [] then 0 else (if vs[0] == Unrated then 1 else 0) + UnratedCount(vs[1..])
  }

  function RatedTotal(vs: seq<real>): real {
    if vs == [] then 0.0 else (if vs[0] != Unrated then vs[0] else 0.0) + RatedTotal(vs[1..])
  }

  /** The statistics a film carries: `guild_avg`, `rating_count`,
      `watch_count`. */
  datatype Aggregate = Aggregate(guildAvg: real, ratingCount: nat, watchCount: nat)

  /** The aggregate of a film's rows: mean of the rated values (0 when none),
      the number rated, and rated plus watched-unrated. */
  function AggregateOf(vs: seq<real>): Aggregate {
    var r := RatedCount(vs);
    Aggregate(if r > 0 then RatedTotal(vs) / r as real else 0.0, r, r + UnratedCount(vs))
  }

  /** The statistics counted by a tallying loop are those `AggregateOf` defines. */
  lemma TalliedAggregate(ratings: seq<Rating>, movieId: string, total: real, rCount: nat, urCount: nat)
    requires rCount == RatedCount(RowValues(ratings, movieId))
    requires urCount == UnratedCount(RowValues(ratings, movieId))
    requires total == RatedTotal(RowValues(ratings, movieId))
    ensures AggregateSet(AggregateOf(RowValues(ratings, movieId)))
      == FilmSet(None, None, None, None, Some(if rCount > 0 then total / rCount as real else 0.0), Some(rCount as int), Some((rCount + urCount) as int))
  {
  }

  /** Every row is either rated or the sentinel, so `watch_count` is the
      number of rows and `rating_count` never exceeds it. */
  lemma {:induction false} WatchCountIsRowCount(vs: seq<real>)
    ensures AggregateOf(vs).watchCount == |vs|
    ensures AggregateOf(vs).ratingCount <= AggregateOf(vs).watchCount
  {
    if vs != [] { WatchCountIsRowCount(vs[1..]); }
  }

  predicate RatedWithin(vs: seq<real>, lo: real, hi: real) {
    forall i :: 0 <= i < |vs| && vs[i] != Unrated ==> lo <= vs[i] <= hi
  }

  lemma {:induction false} RatedTotalWithin(vs: seq<real>, lo: real, hi: real)
    requires RatedWithin(vs, lo, hi)
    ensures lo * RatedCount(vs) as real <= RatedTotal(vs) <= hi * RatedCount(vs) as real
  {
    if vs != [] {
      assert RatedWithin(vs[1..], lo, hi) by {
        forall i | 0 <= i < |vs[1..]| && vs[1..][i] != Unrated ensures lo <= vs[1..][i] <= hi { assert vs[1..][i] == vs[i + 1]; }
      }
      RatedTotalWithin(vs[1..], lo, hi);
      var c := RatedCount(vs[1..]) as real;
      var t := RatedTotal(vs[1..]);
      if vs[0] != Unrated {
        assert RatedCount(vs) as real == c + 1.0 && RatedTotal(vs) == vs[0] + t;
        assert lo <= vs[0] <= hi;
        assert lo * (c + 1.0) == lo * c + lo && hi * (c + 1.0) == hi * c + hi;
      } else {
        assert RatedCount(vs) as real == c && RatedTotal(vs) == t;
      }
    }
  }

  /** When every rated value lies in [lo, hi], so does the average. */
  lemma AverageWithin(vs: seq<real>, lo: real, hi: real)
    requires RatedWithin(vs, lo, hi) && RatedCount(vs) > 0
    ensures lo <= AggregateOf(vs).guildAvg <= hi
  {
    RatedTotalWithin(vs, lo, hi);
    QuotientWithin(RatedTotal(vs), RatedCount(vs) as real, lo, hi);
  }

  lemma QuotientWithin(t: real, n: real, lo: real, hi: real)
    requires n > 0.0 && lo * n <= t <= hi * n
    ensures lo <= t / n <= hi
  {
    var q := t / n;
    assert q * n == t;
  }

  lemma {:induction false} CountsOfRemoval(vs: seq<real>, i: nat)
    requires i < |vs|
    ensures RatedCount(vs) == RatedCount([vs[i]]) + RatedCount(vs[..i] + vs[i + 1..])
    ensures UnratedCount(vs) == UnratedCount([vs[i]]) + UnratedCount(vs[..i] + vs[i + 1..])
    ensures RatedTotal(vs) == RatedTotal([vs[i]]) + RatedTotal(vs[..i] + vs[i + 1..])
  {
    if i > 0 {
      CountsOfRemoval(vs[1..], i - 1);
      assert vs[1..][..i - 1] + vs[1..][i..] == (vs[..i] + vs[i + 1..])[1..];
    } else {
      assert vs[..i] + vs[i + 1..] == vs[1..];
    }
  }

  lemma MultisetOfRemoval(ws: seq<real>, i: nat)
    requires i < |ws|
    ensures multiset(ws[..i] + ws[i + 1..]) == multiset(ws) - multiset{ws[i]}
  {
    assert ws == ws[..i] + [ws[i]] + ws[i + 1..];
  }

  lemma {:induction false} CountsIgnoreOrder(vs: seq<real>, ws: seq<real>)
    requires multiset(vs) == multiset(ws)
    ensures RatedCount(vs) == RatedCount(ws)
    ensures UnratedCount(vs) == UnratedCount(ws)
    ensures RatedTotal(vs) == RatedTotal(ws)
    decreases |vs|
  {
    if vs == [] {
      assert |ws| == |multiset(ws)| == 0;
    } else {
      var x := vs[0];
      assert x in multiset(ws);
      var i :| 0 <= i < |ws| && ws[i] == x;
      var rest := ws[..i] + ws[i + 1..];
      MultisetOfRemoval(ws, i);
      assert vs == [x] + vs[1..];
      assert multiset(vs[1..]) == multiset(vs) - multiset{x};
      CountsIgnoreOrder(vs[1..], rest);
      CountsOfRemoval(ws, i);
    }
  }

  /** The aggregate depends only on the multiset of row values, not on the
      order the scan returns them in: recomputation is deterministic. */
  lemma AggregateIgnoresOrder(vs: seq<real>, ws: seq<real>)
    requires multiset(vs) == multiset(ws)
    ensures AggregateOf(vs) == AggregateOf(ws)
  {
    CountsIgnoreOrder(vs, ws);
  }

  // =================================================================== films

  /** A `films` document; a field that was never `$set` is `None`. */
  datatype Film = Film(
    movieId: string,
    name: Option<string>,
    link: Option<string>,
    releaseYear: Option<int>,
    posterUrl: Option<string>,
    guildAvg: Option<real>,
    ratingCount: Option<int>,
    watchCount: Option<int>)

  /** The fields of a `$set` on a film; `None` fields are not written. */
  datatype FilmSet = FilmSet(
    name: Option<string>,
    link: Option<string>,
    releaseYear: Option<int>,
    posterUrl: Option<string>,
    guildAvg: Option<real>,
    ratingCount: Option<int>,
    watchCount: Option<int>)

  function Pick<T>(update: Option<T>, current: Option<T>): Option<T> {
    if update.Some? then update else current
  }

  function ApplySet(f: Film, p: FilmSet): Film {
    Film(f.movieId, Pick(p.name, f.name), Pick(p.link, f.link), Pick(p.releaseYear, f.releaseYear),
         Pick(p.posterUrl, f.posterUrl), Pick(p.guildAvg, f.guildAvg), Pick(p.ratingCount, f.ratingCount),
         Pick(p.watchCount, f.watchCount))
  }

  function BlankFilm(movieId: string): Film {
    Film(movieId, None, None, None, None, None, None, None)
  }

  /** The `$set` a recomputation writes: only the three statistics. */
  function AggregateSet(a: Aggregate): FilmSet {
    FilmSet(None, None, None, None, Some(a.guildAvg), Some(a.ratingCount as int), Some(a.watchCount as int))
  }

  function FilmIndex(films: seq<Film>, movieId: string): (r: Option<nat>)
    ensures r.Some? ==> r.value < |films| && films[r.value].movieId == movieId
    ensures r.Some? ==> forall j :: 0 <= j < r.value ==> films[j].movieId != movieId
    ensures r.None? ==> forall j :: 0 <= j < |films| ==> films[j].movieId != movieId
  {
    if films == [] then None
    else if films[0].movieId == movieId then Some(0)
    else match FilmIndex(films[1..], movieId)
      case None => None
      case Some(i) => Some(i + 1)
  }

  /** `films.find_one({'movie_id': m})`. */
  function FindFilm(films: seq<Film>, movieId: string): Option<Film> {
    match FilmIndex(films, movieId)
    case None => None
    case Some(i) => Some(films[i])
  }

  /** `films.update_one({'movie_id': m}, {'$set': p}, upsert=True)`. */
  function UpsertFilm(films: seq<Film>, movieId: string, p: FilmSet): (r: seq<Film>)
    ensures FindFilm(r, movieId) == Some(ApplySet(match FindFilm(films, movieId) case Some(f) => f case None => BlankFilm(movieId), p))
    ensures forall m :: m != movieId ==> FindFilm(r, m) == FindFilm(films, m)
    ensures |films| <= |r| <= |films| + 1
    ensures forall j :: 0 <= j < |films| && films[j].movieId != movieId ==> r[j] == films[j]
  {
    match FilmIndex(films, movieId)
    case Some(i) =>
      var r := films[i := ApplySet(films[i], p)];
      assert forall m :: FilmIndex(r, m) == FilmIndex(films, m) by {
        forall m ensures FilmIndex(r, m) == FilmIndex(films, m) {
          assert forall j :: 0 <= j < |r| ==> r[j].movieId == films[j].movieId;
          if FilmIndex(films, m).Some? {
            FilmIndexIs(r, m, FilmIndex(films, m).value);
          }
        }
      }
      r
    case None =>
      var r := films + [ApplySet(BlankFilm(movieId), p)];
      FilmIndexIs(r, movieId, |films|);
      assert forall m :: m != movieId ==> FilmIndex(r, m) == FilmIndex(films, m) by {
        forall m | m != movieId ensures FilmIndex(r, m) == FilmIndex(films, m) {
          if FilmIndex(films, m).Some? {
            FilmIndexIs(r, m, FilmIndex(films, m).value);
          }
        }
      }
      r
  }

  lemma FilmIndexIs(films: seq<Film>, m: string, i: nat)
    requires i < |films| && films[i].movieId == m
    requires forall j :: 0 <= j < i ==> films[j].movieId != m
    ensures FilmIndex(films, m) == Some(i)
  {
  }

  // =================================================================== users

  /** A `users` document: the member id, the Letterboxd handle and the cached
      number of ratings pages, absent until a full sync has counted them. */
  datatype User = User(uid: int, lbId: string, numRatingsPages: Option<int>)

  /** `users.find_one({'lb_id': lbId})`. */
  function FindUserByHandle(users: seq<User>, lbId: string): (r: Option<User>)
    ensures r.Some? ==> r.value in users && r.value.lbId == lbId
    ensures r.None? ==> forall j :: 0 <= j < |users| ==> users[j].lbId != lbId
  {
    if users == [] then None
    else if users[0].lbId == lbId then Some(users[0])
    else FindUserByHandle(users[1..], lbId)
  }

  /** `users.find({'uid': uid})[0]`: the first match, or IndexError. */
  function FindUserByUid(users: seq<User>, uid: int): (r: Result<User>)
    ensures r.Ok? ==> r.value in users && r.value.uid == uid
    ensures r.Ok? ==> exists k :: 0 <= k < |users| && users[k] == r.value &&
                                (forall j :: 0 <= j < k ==> users[j].uid != uid)
    ensures r.Err? ==> r.error == IndexError && forall j :: 0 <= j < |users| ==> users[j].uid != uid
  {
    if users == [] then Err(IndexError)
    else if users[0].uid == uid then Ok(users[0])
    else FindUserByUid(users[1..], uid)
  }

  /** The position of the first user with the handle. */
  function HandleIndex(users: seq<User>, lbId: string): (r: Option<nat>)
    ensures r.Some? ==> r.value < |users| && users[r.value].lbId == lbId
    ensures r.Some? ==> forall j :: 0 <= j < r.value ==> users[j].lbId != lbId
    ensures r.None? <==> FindUserByHandle(users, lbId).None?
  {
    if users == [] then None
    else if users[0].lbId == lbId then Some(0)
    else match HandleIndex(users[1..], lbId)
      case None => None
      case Some(i) => Some(i + 1)
  }

  /** `users.update_one({'lb_id': lbId}, {'$set': {'num_ratings_pages': n}})`
      without upsert: the first user with that handle is updated; no user is
      created. */
  function SetPageCount(users: seq<User>, lbId: string, n: int): (r: seq<User>)
    ensures |r| == |users|
    ensures forall j :: 0 <= j < |r| ==> r[j].uid == users[j].uid && r[j].lbId == users[j].lbId
    ensures FindUserByHandle(users, lbId).Some? ==> FindUserByHandle(r, lbId) == Some(FindUserByHandle(users, lbId).value.(numRatingsPages := Some(n)))
    ensures FindUserByHandle(users, lbId).None? ==> r == users
    ensures HandleIndex(users, lbId).Some? ==>
      var i := HandleIndex(users, lbId).value;
      r == users[i := users[i].(numRatingsPages := Some(n))]
  {
    if users == [] then []
    else if users[0].lbId == lbId then [users[0].(numRatingsPages := Some(n))] + users[1..]
    else [users[0]] + SetPageCount(users[1..], lbId, n)
  }

  /** The full database of one guild. */
  class Database {
    var users: seq<User>
    var ratings: seq<Rating>
    var films: seq<Film>

    constructor (users: seq<User>, ratings: seq<Rating>, films: seq<Film>)
      ensures this.users == users && this.ratings == ratings && this.films == films
    {
      this.users := users;
      this.ratings := ratings;
      this.films := films;
    }
  }
}
