/** Shared vocabulary: optional values, the Python exceptions the modelled code
    raises, and the handful of `str` operations it relies on (split, join,
    isdigit, int(), str(), capitalize), restricted to ASCII. */
module Common {

  datatype Option<T> = None | Some(value: T)

  /** The exception a Python expression would raise. The modelled code never
      catches these (except `IndexError` where noted), so they end the call. */
  datatype PyError =
    | IndexError        // `xs[i]` out of range, `[0]` of an empty result
    | KeyError          // missing dictionary key / document field
    | ValueError        // `int()` of a non-numeric string, empty `randrange`
    | TypeError         // subscripting `None`
    | AttributeError    // calling a method on `None`
    | UnboundLocalError // reading a local that no branch assigned

  datatype Result<T> = Ok(value: T) | Err(error: PyError)

  function Last<T>(s: seq<T>): T
    requires |s| > 0
  {
    s[|s| - 1]
  }

  /** `xs[-2]`: the second-to-last element, or IndexError. */
  function SecondToLast<T>(s: seq<T>): (r: Result<T>)
    ensures r.Ok? <==> |s| >= 2
    ensures r.Ok? ==> r.value == s[|s| - 2]
  {
    if |s| < 2 then Err(IndexError) else Ok(s[|s| - 2])
  }

  // ---------------------------------------------------------------- digits

  predicate IsDigit(c: char) { '0' <= c <= '9' }

  /** Python's `str.isdigit()` on ASCII text: non-empty and only digits. */
  predicate IsDigits(s: string) {
    |s| > 0 && forall i :: 0 <= i < |s| ==> IsDigit(s[i])
  }

  function DigitValue(c: char): nat
    requires IsDigit(c)
  {
    (c - '0') as nat
  }

  function DigitChar(d: nat): (c: char)
    requires d < 10
    ensures IsDigit(c) && DigitValue(c) == d
  {
    ('0' as int + d) as char
  }

  /** The number a run of decimal digits denotes (most significant first). */
  function DigitsValue(s: string): nat
    requires forall i :: 0 <= i < |s| ==> IsDigit(s[i])
  {
    if s == [] then 0 else DigitsValue(s[..|s| - 1]) * 10 + DigitValue(s[|s| - 1])
  }

  /** Python's `int(s)` for an optionally signed run of ASCII digits; `None`
      is the `ValueError` case. */
  function ParseInt(s: string): (r: Option<int>)
    ensures r.Some? <==> IsDigits(s) || (|s| >= 2 && (s[0] == '+' || s[0] == '-') && IsDigits(s[1..]))
    ensures IsDigits(s) ==> r == Some(DigitsValue(s) as int)
  {
    if IsDigits(s) then Some(DigitsValue(s) as int)
    else if |s| >= 2 && s[0] == '+' && IsDigits(s[1..]) then Some(DigitsValue(s[1..]) as int)
    else if |s| >= 2 && s[0] == '-' && IsDigits(s[1..]) then Some(-(DigitsValue(s[1..]) as int))
    else None
  }

  /** Python's `str(n)` for a non-negative integer. */
  function NatToString(n: nat): (s: string)
    ensures IsDigits(s)
  {
    if n < 10 then [DigitChar(n)] else NatToString(n / 10) + [DigitChar(n % 10)]
  }

  /** Python's `str(i)` for any integer. */
  function IntToString(i: int): string {
    if i < 0 then "-" + NatToString(-i) else NatToString(i)
  }

  lemma {:induction false} DigitsValueOfNatToString(n: nat)
    ensures DigitsValue(NatToString(n)) == n
  {
    var s := NatToString(n);
    if n >= 10 {
      DigitsValueOfNatToString(n / 10);
      assert s[..|s| - 1] == NatToString(n / 10);
    }
  }

  /** `int(str(i)) == i`: rendering an integer and parsing it back is lossless. */
  lemma IntToStringRoundTrip(i: int)
    ensures ParseInt(IntToString(i)) == Some(i)
  {
    if i < 0 {
      var s := IntToString(i);
      assert s[1..] == NatToString(-i);
      DigitsValueOfNatToString(-i);
    } else {
      DigitsValueOfNatToString(i);
    }
  }

  // --------------------------------------------------------- split & join

  /** Python's `s.split(sep)` for a one-character separator. */
  function Split(s: string, sep: char): (parts: seq<string>)
    ensures |parts| >= 1
    ensures forall k :: 0 <= k < |parts| ==> sep !in parts[k]
  {
    if s == [] then [""]
    else
      var rest := Split(s[1..], sep);
      if s[0] == sep then [""] + rest else [[s[0]] + rest[0]] + rest[1..]
  }

  /** Python's `sep.join(parts)`. */
  function Join(parts: seq<string>, sep: string): string {
    if |parts| == 0 then ""
    else if |parts| == 1 then parts[0]
    else parts[0] + sep + Join(parts[1..], sep)
  }

  /** Splitting on a character and joining on it again gives back the text. */
  lemma {:induction false} JoinSplit(s: string, sep: char)
    ensures Join(Split(s, sep), [sep]) == s
  {
    if s != [] {
      var rest := Split(s[1..], sep);
      JoinSplit(s[1..], sep);
      if s[0] != sep {
        var parts := [[s[0]] + rest[0]] + rest[1..];
        assert parts[1..] == rest[1..];
        if |rest| == 1 {
          assert Join(parts, [sep]) == [s[0]] + rest[0];
        } else {
          assert Join(rest, [sep]) == rest[0] + [sep] + Join(rest[1..], [sep]);
        }
      }
    }
  }

  /** A separator after a separator-free head splits off exactly that head. */
  lemma {:induction false} SplitAround(a: string, sep: char, b: string)
    requires sep !in a
    ensures Split(a + [sep] + b, sep) == [a] + Split(b, sep)
    decreases |a|
  {
    var s := a + [sep] + b;
    if a == [] {
      assert s[1..] == b;
    } else {
      assert s[1..] == a[1..] + [sep] + b;
      SplitAround(a[1..], sep, b);
      assert [a[0]] + a[1..] == a;
    }
  }

  /** Text without the separator is a single part. */
  lemma {:induction false} SplitNone(a: string, sep: char)
    requires sep !in a
    ensures Split(a, sep) == [a]
    decreases |a|
  {
    if a != [] {
      SplitNone(a[1..], sep);
      assert [a[0]] + a[1..] == a;
    }
  }

  /** Joining separator-free parts and splitting again gives the parts back. */
  lemma {:induction false} SplitJoin(parts: seq<string>, sep: char)
    requires |parts| >= 1
    requires forall k :: 0 <= k < |parts| ==> sep !in parts[k]
    ensures Split(Join(parts, [sep]), sep) == parts
    decreases |parts|
  {
    if |parts| == 1 {
      SplitNone(parts[0], sep);
    } else {
      SplitJoin(parts[1..], sep);
      SplitAround(parts[0], sep, Join(parts[1..], [sep]));
      assert [parts[0]] + parts[1..] == parts;
    }
  }

  /** `link.split('/')[-2]`: the last path segment of a link that ends in
      `/`, e.g. the film slug of `https://letterboxd.com/film/<slug>/`. */
  function LinkSlug(link: string): Result<string> {
    SecondToLast(Split(link, '/'))
  }

  /** A link built from a base, a slash-free slug and a closing slash gives
      the slug back. */
  lemma LinkSlugRoundTrip(base: string, slug: string)
    requires '/' !in slug
    ensures LinkSlug(base + "/" + slug + "/") == Ok(slug)
  {
    SlashSplitTail(base, slug);
  }

  lemma {:induction false} SlashSplitTail(base: string, slug: string)
    requires '/' !in slug
    ensures var parts := Split(base + "/" + slug + "/", '/');
      |parts| >= 3 && parts[|parts| - 2] == slug && parts[|parts| - 1] == ""
    decreases |base|
  {
    var s := base + "/" + slug + "/";
    if base == [] {
      assert s == "/" + slug + "/";
      SlashSplitSlug(slug);
    } else {
      assert s[1..] == base[1..] + "/" + slug + "/";
      SlashSplitTail(base[1..], slug);
      var rest := Split(s[1..], '/');
      var parts := Split(s, '/');
      if base[0] == '/' {
        assert parts == [""] + rest;
      } else {
        assert parts == [[s[0]] + rest[0]] + rest[1..];
      }
      assert |parts| >= |rest|;
      assert parts[|parts| - 2] == rest[|rest| - 2] && parts[|parts| - 1] == rest[|rest| - 1];
    }
  }

  lemma SlashSplitSlug(slug: string)
    requires '/' !in slug
    ensures var parts := Split("/" + slug + "/", '/');
      |parts| == 3 && parts[1] == slug && parts[2] == ""
  {
    assert "/" + slug + "/" == [] + ['/'] + (slug + ['/'] + "");
    SplitAround([], '/', slug + ['/'] + "");
    SplitAround(slug, '/', "");
    SplitNone("", '/');
  }

  /** Python's `s.replace(c, '')`. */
  function RemoveChar(s: string, c: char): (r: string)
    ensures c !in r
    ensures |r| <= |s|
    ensures forall k :: 0 <= k < |r| ==> r[k] in s
    ensures c !in s ==> r == s
    ensures multiset(r) == multiset(s)[c := 0]
  {
    if s == [] then ""
    else
      assert s == [s[0]] + s[1..];
      if s[0] == c then RemoveChar(s[1..], c)
      else [s[0]] + RemoveChar(s[1..], c)
  }

  /** Removing a character works piece by piece, keeping every other
      character in its order. */
  lemma {:induction false} RemoveCharAppend(a: string, b: string, c: char)
    ensures RemoveChar(a + b, c) == RemoveChar(a, c) + RemoveChar(b, c)
    decreases |a|
  {
    if a != [] {
      assert (a + b)[1..] == a[1..] + b;
      RemoveCharAppend(a[1..], b, c);
    } else {
      assert a + b == b;
    }
  }

  /** A number grouped with a comma, `1,234`, loses only the comma. */
  lemma RemoveGroupingComma(a: string, b: string)
    requires ',' !in a && ',' !in b
    ensures RemoveChar(a + "," + b, ',') == a + b
  {
    RemoveCharAppend(a + ",", b, ',');
    RemoveCharAppend(a, ",", ',');
  }

  // --------------------------------------------------------------- casing

  function Upper(c: char): char {
    if 'a' <= c <= 'z' then (c as int - 32) as char else c
  }

  function Lower(c: char): char {
    if 'A' <= c <= 'Z' then (c as int + 32) as char else c
  }

  /** Python's `str.capitalize()`: first character upper-cased, the rest
      lower-cased. */
  function Capitalize(s: string): (r: string)
    ensures |r| == |s|
    ensures |s| > 0 ==> r[0] == Upper(s[0])
    ensures forall k :: 0 < k < |s| ==> r[k] == Lower(s[k])
  {
    if s == [] then "" else [Upper(s[0])] + seq(|s| - 1, k requires 0 <= k < |s| - 1 => Lower(s[k + 1]))
  }

  /** Case changes never produce or remove a `-` or a space. */
  lemma CaseKeepsPunctuation(c: char)
    ensures Upper(c) == '-' <==> c == '-'
    ensures Lower(c) == '-' <==> c == '-'
    ensures Upper(c) == ' ' <==> c == ' '
    ensures Lower(c) == ' ' <==> c == ' '
  {
  }
}
