/**
 * The per-recipe callback of `recipes.map` (app/api/generate/route.ts:104-125):
 * scrape the source page's Open Graph image, fall back to a stock-photo search,
 * and return the recipe with `imageUrl` set.
 */
module ImageTiers {
  import opened Wrappers
  import opened Js
  import opened OgImage

  /** How the stock-photo search ended: it threw (network error, unreadable JSON), or JSON arrived. */
  datatype SearchOutcome = SearchThrew | SearchReplied(data: Value)

  /** What the outside world answers for one recipe: its source page and its photo search. */
  datatype ImageIo = ImageIo(page: PageOutcome, search: SearchOutcome)

  /** `recipe.sourceUrl`, for a recipe on which the read does not throw. */
  function SourceUrl(recipe: Value): Value {
    OptMember(recipe, "sourceUrl")
  }

  /** `recipe.title`, which the search tier converts to a string for its query. */
  function Title(recipe: Value): Value {
    OptMember(recipe, "title")
  }

  /** Tier 1: `fetchOgImage(recipe.sourceUrl)` when the source URL is truthy, otherwise nothing. */
  function Scrape(recipe: Value, page: PageOutcome): (r: Completion<Option<string>>)
    ensures !Truthy(SourceUrl(recipe)) ==> r == Returned(None)
    ensures r.Returned? && r.value.Some? ==> r.value.value != []
  {
    var src := SourceUrl(recipe);
    if Truthy(src) then FetchOgImage(src, page) else Returned(None)
  }

  /** `imgData.results?.[0]?.urls?.regular || null`; reading `results` of a `null` reply throws. */
  function FirstRegular(data: Value): (r: Completion<Value>)
    ensures r.Threw? <==> Nullish(data)
    ensures r.Returned? ==> r.value.Null? || Truthy(r.value)
    ensures r.Returned? && Truthy(r.value) ==>
              r.value == OptMember(OptMember(OptIndex(OptMember(data, "results"), 0), "urls"), "regular")
  {
    match Member(data, "results")
    case Threw => Threw
    case Returned(results) =>
      var regular := OptMember(OptMember(OptIndex(results, 0), "urls"), "regular");
      Returned(if Truthy(regular) then regular else Null)
  }

  /** Tier 2: the search's first regular-size URL, or `null` when there is none or anything threw. */
  function SearchImage(search: SearchOutcome): (r: Value)
    ensures search.SearchThrew? ==> r == Null
    ensures search.SearchReplied? && Nullish(search.data) ==> r == Null
    ensures search.SearchReplied? && !Nullish(search.data) ==>
              r == (var regular := OptMember(OptMember(OptIndex(OptMember(search.data, "results"), 0), "urls"), "regular");
                    if Truthy(regular) then regular else Null)
    ensures r.Null? || Truthy(r)
  {
    match search
    case SearchThrew => Null
    case SearchReplied(data) =>
      match FirstRegular(data)
      case Threw => Null
      case Returned(v) => v
  }

  /**
   * The `imageUrl` the callback settles on, or a throw that escapes it. The
   * search tier converts the title for its query inside the `try`; when that
   * conversion throws, the `catch` converts the title again for its log
   * message, and that second throw escapes the callback.
   */
  function ImageFor(recipe: Value, io: ImageIo, key: string): (r: Completion<Value>)
    ensures r.Threw? <==>
              Nullish(recipe) || Scrape(recipe, io.page).Threw?
              || (Scrape(recipe, io.page) == Returned(None) && key != "" && ToStringThrows(Title(recipe)))
    ensures r.Returned? ==> r.value.Null? || Truthy(r.value)
  {
    if Nullish(recipe) then Threw
    else
      match Scrape(recipe, io.page)
      case Threw => Threw
      case Returned(Some(url)) => Returned(Str(url))
      case Returned(None) =>
        if key == "" then Returned(Null)
        else if ToStringThrows(Title(recipe)) then Threw
        else Returned(SearchImage(io.search))
  }

  /** `{ ...recipe, imageUrl }`, or the throw that rejects the callback. */
  function EnrichOne(recipe: Value, io: ImageIo, key: string): (r: Completion<map<string, Value>>)
    ensures r.Threw? <==> ImageFor(recipe, io, key).Threw?
    ensures r.Returned? ==> "imageUrl" in r.value && r.value["imageUrl"] == ImageFor(recipe, io, key).value
    ensures r.Returned? && recipe.Obj? ==>
              r.value.Keys == recipe.fields.Keys + {"imageUrl"}
              && forall k :: k in recipe.fields && k != "imageUrl" ==> r.value[k] == recipe.fields[k]
  {
    match ImageFor(recipe, io, key)
    case Threw => Threw
    case Returned(image) => Returned(Spread(recipe)["imageUrl" := image])
  }

  /** The callback's `imageUrl`, reassigned tier by tier as the route does. */
  method ChooseImage(recipe: Value, io: ImageIo, key: string) returns (image: Completion<Value>)
    ensures image == ImageFor(recipe, io, key)
  {
    var src := Member(recipe, "sourceUrl");
    if src.Threw? {
      return Threw;
    }
    assert src.value == SourceUrl(recipe);
    var imageUrl: Value := Null;
    if Truthy(src.value) {
      var scraped := FetchOgImage(src.value, io.page);
      if scraped.Threw? {
        return Threw;
      }
      if scraped.value.Some? {
        imageUrl := Str(scraped.value.value);
      }
    }
    assert Scrape(recipe, io.page) == Returned(if imageUrl.Str? then Some(imageUrl.s) else None);
    if !Truthy(imageUrl) && key != "" {
      // `encodeURIComponent(recipe.title)` throws inside the `try`, and the
      // `catch` throws again on `${recipe.title}`
      var title := Member(recipe, "title");
      assert title.value == Title(recipe);
      if ToStringThrows(title.value) {
        return Threw;
      }
      match io.search {
        case SearchThrew =>
        case SearchReplied(data) =>
          var regular := FirstRegular(data);
          if regular.Returned? {
            imageUrl := regular.value;
          }
      }
    }
    return Returned(imageUrl);
  }

  /** The callback itself: `{ ...recipe, imageUrl }` once the image is settled. */
  method ResolveImage(recipe: Value, io: ImageIo, key: string) returns (result: Completion<map<string, Value>>)
    ensures result == EnrichOne(recipe, io, key)
  {
    var imageUrl := ChooseImage(recipe, io, key);
    if imageUrl.Threw? {
      return Threw;
    }
    return Returned(Spread(recipe)["imageUrl" := imageUrl.value]);
  }

  /** Scraping is tried only for a truthy `sourceUrl`: otherwise the page outcome plays no part. */
  lemma ScrapeOnlyWithSource(recipe: Value, p1: PageOutcome, p2: PageOutcome, search: SearchOutcome, key: string)
    requires !Truthy(SourceUrl(recipe))
    ensures ImageFor(recipe, ImageIo(p1, search), key) == ImageFor(recipe, ImageIo(p2, search), key)
  {
  }

  /** A scraped image is never replaced: neither the key nor the search outcome changes it. */
  lemma ScrapedImageKept(recipe: Value, io: ImageIo, key: string, url: string)
    requires !Nullish(recipe)
    requires Scrape(recipe, io.page) == Returned(Some(url))
    ensures ImageFor(recipe, io, key) == Returned(Str(url))
  {
  }

  /** The search is consulted only when scraping found nothing and the trimmed key is non-empty. */
  lemma SearchOnlyAsFallback(recipe: Value, page: PageOutcome, s1: SearchOutcome, s2: SearchOutcome, key: string)
    requires key == "" || (Scrape(recipe, page).Returned? && Scrape(recipe, page).value.Some?)
    ensures ImageFor(recipe, ImageIo(page, s1), key) == ImageFor(recipe, ImageIo(page, s2), key)
  {
  }

  /** Without a key, a recipe whose page gave no image gets `null`. */
  lemma EmptyKeyNull(recipe: Value, io: ImageIo)
    requires !Nullish(recipe)
    requires Scrape(recipe, io.page) == Returned(None)
    ensures ImageFor(recipe, io, "") == Returned(Null)
  {
  }

  /** A title whose string conversion throws rejects the callback once the search is consulted, whatever the search would answer. */
  lemma TitleRejects(recipe: Value, io: ImageIo, key: string)
    requires !Nullish(recipe) && key != ""
    requires Scrape(recipe, io.page) == Returned(None)
    requires ToStringThrows(Title(recipe))
    ensures ImageFor(recipe, io, key) == Threw
  {
  }

  /** When it is consulted on a title that converts, the search decides the image; a search that throws leaves `null`. */
  lemma SearchDecides(recipe: Value, io: ImageIo, key: string)
    requires !Nullish(recipe) && key != ""
    requires Scrape(recipe, io.page) == Returned(None)
    requires !ToStringThrows(Title(recipe))
    ensures ImageFor(recipe, io, key) == Returned(SearchImage(io.search))
    ensures io.search.SearchThrew? ==> ImageFor(recipe, io, key) == Returned(Null)
  {
  }
}
