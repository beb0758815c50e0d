/**
 * `fetchOgImage` (app/api/generate/route.ts:24-45): the guard on the URL, the
 * outcome of the page fetch, and the Open Graph image match
 * `/<meta property="og:image" content="([^"]+)"/i`.
 */
module OgImage {
  import opened Wrappers
  import opened Text
  import opened Js

  /** The literal part of the pattern, up to and including the opening quote of the content. */
  const OgTag := "<meta property=\"og:image\" content=\""

  /**
   * Case folding under the `i` flag of a non-Unicode JavaScript pattern: only
   * ASCII letters fold, since no other character upper-cases to an ASCII one
   * that the pattern is allowed to use.
   */
  function Fold(c: char): char {
    if 'A' <= c <= 'Z' then (c as int + 32) as char else c
  }

  /** `s` begins with `p`, letters compared without regard to case. */
  predicate StartsWithFolded(s: string, p: string) {
    |p| <= |s| && forall k :: 0 <= k < |p| ==> Fold(s[k]) == Fold(p[k])
  }

  /** The longest prefix of `s` without a double quote: what `[^"]+` consumes. */
  function QuoteFree(s: string): (r: string)
    ensures |r| <= |s| && r == s[..|r|]
    ensures '"' !in r
    ensures |r| < |s| ==> s[|r|] == '"'
    decreases |s|
  {
    if s == [] || s[0] == '"' then []
    else
      var rest := QuoteFree(s[1..]);
      assert [s[0]] + rest == s[..|rest| + 1];
      [s[0]] + rest
  }

  /** The captured group when the pattern matches starting at index `i` of `html`. */
  function MatchAt(html: string, i: nat): (r: Option<string>)
    requires i <= |html|
    ensures r.Some? ==> r.value != [] && '"' !in r.value
    ensures r.Some? ==>
              StartsWithFolded(html[i..], OgTag) && OccursAt(html, r.value + "\"", i + |OgTag|)
  {
    var rest := html[i..];
    if !StartsWithFolded(rest, OgTag) then None
    else
      var value := QuoteFree(rest[|OgTag|..]);
      if value != [] && |OgTag| + |value| < |rest| then
        assert html[i + |OgTag|..i + |OgTag| + |value| + 1] == value + "\"";
        Some(value)
      else None
  }

  /**
   * The converse of `MatchAt`'s contract: the tag (in any letter case), a
   * non-empty quote-free value and a quote at `i` are a match, and the value
   * is its group.
   */
  lemma MatchAtComplete(html: string, i: nat, v: string)
    requires i <= |html| && StartsWithFolded(html[i..], OgTag)
    requires v != [] && '"' !in v && OccursAt(html, v + "\"", i + |OgTag|)
    ensures MatchAt(html, i) == Some(v)
  {
    var start := i + |OgTag|;
    var after := html[start + |v| + 1..];
    assert html[i..][|OgTag|..] == html[start..] == v + "\"" + after;
    QuoteFreeStops(v, after);
  }

  /** The first index at or after `from` where the pattern matches, if any. */
  function FirstMatch(html: string, from: nat): (r: Option<nat>)
    requires from <= |html|
    ensures r.Some? ==> from <= r.value <= |html| && MatchAt(html, r.value).Some?
    ensures r.Some? ==> forall k :: from <= k < r.value ==> MatchAt(html, k).None?
    ensures r.None? ==> forall k :: from <= k <= |html| ==> MatchAt(html, k).None?
    decreases |html| - from
  {
    if MatchAt(html, from).Some? then Some(from)
    else if from == |html| then None
    else FirstMatch(html, from + 1)
  }

  /** `match ? match[1] : null`: the group of the leftmost match, or nothing. */
  function ExtractOgImage(html: string): (r: Option<string>)
    ensures r.Some? ==> r.value != [] && '"' !in r.value
    ensures r.Some? ==>
              exists i :: 0 <= i <= |html| && MatchAt(html, i) == r && (forall k :: 0 <= k < i ==> MatchAt(html, k).None?)
    ensures r.None? <==> forall k :: 0 <= k <= |html| ==> MatchAt(html, k).None?
  {
    match FirstMatch(html, 0)
    case Some(i) => MatchAt(html, i)
    case None => None
  }

  /** The pattern's first match is at `at` when it matches there and nowhere before. */
  lemma ExtractFirst(html: string, at: nat)
    requires at <= |html| && MatchAt(html, at).Some?
    requires forall k :: 0 <= k < at ==> MatchAt(html, k).None?
    ensures ExtractOgImage(html) == MatchAt(html, at)
  {
  }

  /** A tag with a value, where no earlier index matches, is the one whose value is extracted. */
  lemma ExtractFindsFirstTag(html: string, at: nat, v: string)
    requires at <= |html| && StartsWithFolded(html[at..], OgTag)
    requires v != [] && '"' !in v && OccursAt(html, v + "\"", at + |OgTag|)
    requires forall k :: 0 <= k < at ==> MatchAt(html, k).None?
    ensures ExtractOgImage(html) == Some(v)
  {
    MatchAtComplete(html, at, v);
    ExtractFirst(html, at);
  }

  /** Every match starts with `<`, so none starts inside text without one. */
  lemma NoMatchBefore(html: string, at: nat)
    requires at <= |html| && '<' !in html[..at]
    ensures forall k :: 0 <= k < at ==> MatchAt(html, k).None?
  {
    forall k | 0 <= k < at ensures MatchAt(html, k).None? {
      assert html[..at][k] == html[k] != '<';
      assert html[k..][0] == html[k] && Fold(html[k]) != Fold(OgTag[0]);
      assert !StartsWithFolded(html[k..], OgTag);
    }
  }

  /**
   * A tag written into markup that has no earlier `<` is found, whatever the
   * case of its letters, and its content comes back unchanged.
   */
  lemma ExtractFindsTag(before: string, tag: string, content: string, after: string)
    requires '<' !in before
    requires |tag| == |OgTag| && StartsWithFolded(tag, OgTag)
    requires content != [] && '"' !in content
    ensures ExtractOgImage(before + tag + content + "\"" + after) == Some(content)
  {
    var html := before + tag + content + "\"" + after;
    var at := |before|;
    assert html[..at] == before;
    NoMatchBefore(html, at);
    var rest := html[at..];
    assert rest == tag + (content + "\"" + after);
    assert StartsWithFolded(rest, OgTag) by {
      forall k | 0 <= k < |OgTag| ensures Fold(rest[k]) == Fold(OgTag[k]) {
        assert rest[k] == tag[k];
      }
    }
    assert rest[|OgTag|..] == content + "\"" + after;
    QuoteFreeStops(content, after);
    assert MatchAt(html, at) == Some(content);
    ExtractFirst(html, at);
  }

  /** `[^"]+` stops at the first quote. */
  lemma {:induction false} QuoteFreeStops(content: string, after: string)
    requires '"' !in content
    ensures QuoteFree(content + "\"" + after) == content
    decreases |content|
  {
    var s := content + "\"" + after;
    if content != [] {
      assert s[0] == content[0];
      assert s[1..] == content[1..] + "\"" + after;
      QuoteFreeStops(content[1..], after);
      assert content == [content[0]] + content[1..];
    }
  }

  /** How the page request ended: it threw (network error, abort after 3 s, unreadable body), or a status and body arrived. */
  datatype PageOutcome = PageThrew | PageResponded(status: int, html: string)

  /** `res.ok`: a status in the range 200-299. */
  predicate StatusOk(status: int) {
    200 <= status <= 299
  }

  /** The URL guard `!url || url.includes('google.com')`, with `includes` of a string or an array. */
  predicate Skipped(url: Value)
    requires !Truthy(url) || url.Str? || url.Arr?
  {
    !Truthy(url)
    || (url.Str? && Contains(url.s, "google.com"))
    || (url.Arr? && Str("google.com") in url.items)
  }

  /**
   * `fetchOgImage(url)`. The guard runs before the `try`, so a truthy URL that
   * has no `includes` method (a number, `true`, an object) throws out of the
   * function; everything after it is caught and becomes `null`.
   */
  function FetchOgImage(url: Value, page: PageOutcome): (r: Completion<Option<string>>)
    ensures r.Threw? <==> Truthy(url) && !url.Str? && !url.Arr?
    ensures r.Returned? && Skipped(url) ==> r.value.None?
    ensures r.Returned? && r.value.Some? ==>
      page.PageResponded? && StatusOk(page.status) && ExtractOgImage(page.html) == r.value
    ensures r.Returned? && !Skipped(url) && page.PageResponded? && StatusOk(page.status) ==>
      r.value == ExtractOgImage(page.html)
  {
    if !Truthy(url) then Returned(None)
    else if !(url.Str? || url.Arr?) then Threw
    else if Skipped(url) then Returned(None)
    else
      match page
      case PageThrew => Returned(None)
      case PageResponded(status, html) =>
        Returned(if StatusOk(status) then ExtractOgImage(html) else None)
  }

  /** When the guard skips a URL, no page outcome can make a difference: no request is made. */
  lemma SkippedMakesNoRequest(url: Value, p1: PageOutcome, p2: PageOutcome)
    requires !Truthy(url) || url.Str? || url.Arr?
    requires Skipped(url)
    ensures FetchOgImage(url, p1) == FetchOgImage(url, p2) == Returned(None)
  {
  }
}
