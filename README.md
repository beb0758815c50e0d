# Recipe generation route — a Dafny model

This project models the server route that generates dinner recipes
(`app/api/generate/route.ts`). The route:

1. picks a priority instruction from the request's `priority`;
2. composes the prompt: a fixed system prompt, a newline and a four-line
   per-request prompt;
3. sends the prompt to the generation service;
4. strips Markdown code fences from the reply text and parses it as JSON;
5. gives every parsed recipe an `imageUrl`, taken first from the recipe page's
   `og:image` meta tag and otherwise from a stock-photo search;
6. answers with the enriched recipes, or with one of three 500 error bodies.

Everything the route gets from outside becomes a parameter:

- the generation service's answer, as a function of the payload it is sent;
- `JSON.parse`, as a function from text to an optional value;
- the environment variable `UNSPLASH_ACCESS_KEY`, as an optional string;
- for the recipe at each position, the outcome of its page request and of its
  photo search.

Modules:

- `Js`: the JavaScript values a JSON document holds, plus `undefined`.
  - Truthiness.
  - Property reads that throw on `null`/`undefined`, and optional chaining.
  - Object spread.
  - An evaluation ends in `Returned(v)` or `Threw`.
- `Text`:
  - `includes`.
  - Global removal of a literal, as `replace(/lit/g, '')` does it.
  - JavaScript's `trim`, with its full whitespace set.
  - Splitting into lines, used only to state the prompt's layout.
- `Prompt`: the system prompt, the priority instruction and the request template.
- `Fences`: the reply cleaning `replace(/```json/g, '').replace(/```/g, '').trim()`.
- `OgImage`: `fetchOgImage`.
  - The URL guard.
  - The page outcome.
  - The leftmost match of `/<meta property="og:image" content="([^"]+)"/i`.
- `ImageTiers`: the per-recipe callback of `recipes.map`, with scrape first and search as the fallback.
- `Handler`: the `POST` handler.
  - `Post` is proved to send `Payload(req)`.
  - `Post` is proved to reply `Respond(answer, …)`, where `answer` is the service's answer to that payload.

Facts about the route that the model keeps as they are:

- The URL guard has no http(s) scheme check.
- Only the `og:image` tag is searched. There is no `twitter:image` or `image_src` fallback.
- The photo search always uses `title`.
- Unparseable text gets the fixed invalid-JSON body. Nothing tries to recover an array from it.
- The generation service's HTTP status is never checked. Its JSON reply alone decides.
- Image resolution does not absorb every failure. Three cases reject the callback, which rejects `Promise.all`, and the whole request then ends with the generic 500:
  - A truthy `sourceUrl` that is neither a string nor an array. It has no `includes` method, and the guard runs before `fetchOgImage`'s `try`.
  - A `null` or `undefined` element of the parsed array.
  - A `title` whose string conversion throws, when the photo search is consulted. This is an object with its own `toString` field, or an array holding one. `encodeURIComponent` throws inside the `try`, and the `catch` throws again while building its log message `${recipe.title}`.

## Model

| member | source | states |
|---|---|---|
| Prompt.PriorityInstruction | app/api/generate/route.ts:51-58 | Each of "Cheaper Ingredients", "Fewer Ingredients" and "Fancier Meals" gets its own instruction, and only that value does. Every other value, absent and non-string values included, gets "Balance cost, ease, and flavor.". |
| Handler.SelectInstruction | app/api/generate/route.ts:51-58 | The route's chain of reassignments, starting from the default and overwriting on an exact match, ends with exactly `PriorityInstruction(priority)`. |
| Prompt.SentencesOneLine | app/api/generate/route.ts:61-63 | The kid-friendly sentence and the closing line contain no newline. |
| Prompt.InstructionsOneLine | app/api/generate/route.ts:51-57 | None of the four priority instructions contains a newline. |
| Prompt.RequestLineOneLine | app/api/generate/route.ts:60 | The "Find … people. " line contains no newline when `count`, `diet` and `people` contain none. |
| Prompt.PayloadLines | app/api/generate/route.ts:60-63 | The payload's last four lines are, in order: the request line; the kid-friendly line, which is "  " plus the sentence when `kidFriendly` is truthy and just "  " otherwise; "  " plus the selected instruction; and the closing line. |
| Prompt.KidSentenceIncluded | app/api/generate/route.ts:61 | When `kidFriendly` is truthy, the payload contains the kid-friendly sentence. |
| Handler.BuildPayload | app/api/generate/route.ts:51-76 | The text sent is `SYSTEM_PROMPT + "\n" + userPrompt`, built with the selected instruction. |
| Text.Lines | app/api/generate/route.ts:60-63 | `split('\n')`: the lines of the template. `Text.JoinLines` and `Text.LinesNoNewline` state that it is exactly that split. |
| Text.JoinLines | app/api/generate/route.ts:60-63 | Joining the lines with newlines gives the text back, so no character is lost or added by the split. |
| Text.LinesNoNewline | app/api/generate/route.ts:60-63 | No line contains a newline, so every newline of the text separates two lines. |
| Text.Trim | app/api/generate/route.ts:92 | The result starts and ends with a non-space. Around it the input holds only characters from JavaScript's whitespace and line-terminator set, the leading ones being exactly the input's leading spaces. |
| Text.TrimKeepsAbsent | app/api/generate/route.ts:92 | Trimming never creates an occurrence of a pattern. |
| Text.RemoveAllAbsent | app/api/generate/route.ts:92 | Removing every occurrence of a literal that does not occur leaves the text unchanged. |
| Fences.NoFenceLeft | app/api/generate/route.ts:92 | After every "```" is removed, the left-to-right scan leaves no "```": removing one fence never joins backticks into a new one. |
| Fences.StripFences | app/api/generate/route.ts:92 | The cleaned text contains no "```" and has no leading or trailing whitespace. |
| Fences.NoJsonFenceWithoutFence | app/api/generate/route.ts:92 | Text without "```" contains no "```json". |
| Fences.StripFencesIdempotent | app/api/generate/route.ts:92 | Cleaning an already cleaned text returns it unchanged. |
| Fences.StripFencesUnwraps | app/api/generate/route.ts:92 | `"```json\n" + s + "\n```"` is cleaned back to `s` for any trimmed, backtick-free `s`. |
| OgImage.QuoteFree | app/api/generate/route.ts:40 | What `[^"]+` consumes: the longest quote-free prefix, which stops at a quote or at the end. |
| OgImage.QuoteFreeStops | app/api/generate/route.ts:40 | On a quote-free value followed by a quote, `[^"]+` consumes exactly that value. |
| OgImage.MatchAt | app/api/generate/route.ts:40 | A match at index `i` means: the tag literal is there, case-insensitively; then a non-empty quote-free group; then a quote. The captured group is the original text. |
| OgImage.MatchAtComplete | app/api/generate/route.ts:40 | The converse of `MatchAt`: the tag in any letter case, then a non-empty quote-free value, then a quote, is a match at that index, and its group is that value. |
| OgImage.FirstMatch | app/api/generate/route.ts:40-41 | The leftmost index at or after `from` where the pattern matches, or none when it matches nowhere there. |
| OgImage.ExtractOgImage | app/api/generate/route.ts:40-41 | The result is the non-empty, quote-free group of the leftmost match. It is null exactly when the pattern matches at no index. |
| OgImage.ExtractFirst | app/api/generate/route.ts:40-41 | A match with no match before it is the one returned. |
| OgImage.ExtractFindsFirstTag | app/api/generate/route.ts:40-41 | A tag with a value, with no match at any earlier index, is what is extracted. Markup before the tag is allowed. |
| OgImage.NoMatchBefore | app/api/generate/route.ts:40 | No match starts inside text that has no `<`. |
| OgImage.ExtractFindsTag | app/api/generate/route.ts:40-41 | A tag in any letter case, placed after `<`-free text and followed by a quote-free value and a quote, yields exactly that value. |
| OgImage.FetchOgImage | app/api/generate/route.ts:24-45 | The call throws exactly when the URL is truthy but neither a string nor an array. A falsy URL, or one that includes "google.com", gives null. A value is returned only when the page answered with a 200-299 status, and it is then the extracted group, so a thrown page request never yields one. |
| OgImage.SkippedMakesNoRequest | app/api/generate/route.ts:25 | For a skipped URL the page outcome cannot matter: no request is made and the result is null. |
| ImageTiers.Scrape | app/api/generate/route.ts:108-110 | Without a truthy `sourceUrl` nothing is scraped. A scraped URL is non-empty. |
| ImageTiers.FirstRegular | app/api/generate/route.ts:118 | `results?.[0]?.urls?.regular \|\| null` throws only on a `null` reply. Otherwise it gives null or that truthy value. |
| ImageTiers.SearchImage | app/api/generate/route.ts:113-121 | A thrown search, or a `null` reply, gives null. Any other reply gives its `results?.[0]?.urls?.regular` when that is truthy, and null otherwise. |
| ImageTiers.ImageFor | app/api/generate/route.ts:105-122 | The callback throws exactly in these cases: the recipe is nullish; the scrape throws; or nothing was scraped, the key is non-empty and the title's string conversion throws. Otherwise the image is null or a truthy value. |
| ImageTiers.EnrichOne | app/api/generate/route.ts:124 | `{...recipe, imageUrl}` has the recipe's keys plus `imageUrl`. Every other field is unchanged, and `imageUrl` is the chosen image, replacing any earlier one. |
| ImageTiers.ChooseImage | app/api/generate/route.ts:105-122 | The route's reassignments of `imageUrl`, scrape tier then search tier, end with exactly `ImageFor`. |
| ImageTiers.ResolveImage | app/api/generate/route.ts:104-125 | The callback as the route runs it returns exactly `EnrichOne`. |
| ImageTiers.ScrapeOnlyWithSource | app/api/generate/route.ts:108-110 | When `sourceUrl` is falsy, the page outcome plays no part in the image. |
| ImageTiers.ScrapedImageKept | app/api/generate/route.ts:113 | A scraped image is kept whatever the key and the search answer. |
| ImageTiers.SearchOnlyAsFallback | app/api/generate/route.ts:113 | With an empty key, or when scraping found an image, the search answer plays no part. |
| ImageTiers.EmptyKeyNull | app/api/generate/route.ts:113 | With an empty key, a recipe whose page gave no image gets null. |
| ImageTiers.TitleRejects | app/api/generate/route.ts:113-121 | When nothing was scraped, the key is non-empty and the title's string conversion throws, the callback throws, whatever the search would answer. |
| ImageTiers.SearchDecides | app/api/generate/route.ts:113-121 | When nothing was scraped, the key is non-empty and the title converts, the image is the search's result. A search that throws leaves null. |
| Handler.UnsplashKey | app/api/generate/route.ts:66 | The key is the variable's value with its leading and trailing whitespace cut off. An unset variable gives the empty key. |
| Handler.Details | app/api/generate/route.ts:87 | `details` is truthy: the upstream `error.message` or "No candidates returned.". |
| Handler.ApiError | app/api/generate/route.ts:85-88 | A 500 whose body has exactly `error: "API Error"` and a truthy `details`. |
| Handler.CandidateText | app/api/generate/route.ts:91 | Reading `data.candidates[0].content.parts[0].text` throws exactly when one of the intermediate values is nullish. Otherwise it gives the optional-chained value. |
| Handler.EnrichAll | app/api/generate/route.ts:104-125 | The enrichment rejects exactly when some recipe's callback throws. Otherwise its output has the input's length, and element `k` is the enriched recipe `k`. |
| Handler.EnrichAllExtend | app/api/generate/route.ts:104 | Enriching one more recipe appends that recipe's result to the enriched prefix. |
| Handler.EnrichRecipes | app/api/generate/route.ts:104-125 | Running the callbacks one after another, stopping at the first throw, gives exactly `EnrichAll`. |
| Handler.Respond | app/api/generate/route.ts:80-132 | Every failure is a 500 with an `error` field. Recipes are served only when the service replied with truthy `candidates`. Every path to each outcome is stated by `Handler.MissingCandidates`, `Handler.MalformedReplyFails`, `Handler.UnparseableText`, `Handler.OneFailureFailsAll` and `Handler.ServedRecipes`. |
| Handler.Answer | app/api/generate/route.ts:80-132 | The route's steps after the service answers, each failure returning at once, give exactly `Respond`. |
| Handler.Post | app/api/generate/route.ts:47-133 | The handler sends `Payload(req)`. It replies with `Respond` applied to the service's answer to that payload and to the trimmed photo-search key. |
| Handler.MissingCandidates | app/api/generate/route.ts:82-89 | A reply without truthy `candidates` gets a 500 with `error: "API Error"`. `details` is `error.message` when it is truthy, and "No candidates returned." otherwise. |
| Handler.MalformedReplyFails | app/api/generate/route.ts:80-131 | A malformed reply gives `{error: "Failed to generate recipes"}`. That covers a service call that throws, a nullish reply, a `candidates[0].content.parts[0].text` path that breaks at a nullish step, a non-string text, and a parsed value that is not an array. |
| Handler.UnparseableText | app/api/generate/route.ts:95-100 | Cleaned text that does not parse gets the 500 body `{error: "AI returned invalid JSON"}`, whatever the images would have been. |
| Handler.ServedRecipes | app/api/generate/route.ts:104-127 | When every recipe's image lookup returns, the reply is served. It holds one recipe per parsed element, in order, and each is the element's own fields with `imageUrl` set to the image chosen for it. |
| Handler.OneFailureFailsAll | app/api/generate/route.ts:104-131 | One recipe whose callback throws turns the whole reply into `{error: "Failed to generate recipes"}`. |
| Js.Member | app/api/generate/route.ts:91 | `v.name` throws exactly on `null`/`undefined`. A defined result is an own field of an object. |
| Js.Index | app/api/generate/route.ts:91 | `v[i]` throws exactly on `null`/`undefined`. |
| Js.OptMember | app/api/generate/route.ts:118 | `v?.name` is `undefined` on a nullish `v`. It is an object's own field when the object has one. Any defined result is such a field. |
| Js.OptIndex | app/api/generate/route.ts:118 | `v?.[i]` is element `i` of an array, the `i`-th character of a string, or an object's field named by the digits of `i`. Any defined result is one of these. |
| Js.NatToStringInjective | app/api/generate/route.ts:124 | Different indices have different decimal keys. |
| Js.IndexedKeys | app/api/generate/route.ts:124 | The index-keyed fields of a sequence hold each element under its decimal index, and nothing else. |
| Js.Spread | app/api/generate/route.ts:124 | `{...v}` copies an object's own fields. For an array it gives the elements, and for a string its characters, each keyed by its decimal index. It gives nothing for `null`, `undefined`, a boolean or a number. |
| Js.Truthy | app/api/generate/route.ts:25 | ToBoolean, the test at route.ts:25, 61, 82, 108, 113 and 118: false exactly for `undefined`, `null`, `false`, zero and the empty string. Its meaning in the route is given by `OgImage.FetchOgImage`, `ImageTiers.ScrapeOnlyWithSource` and `Handler.MissingCandidates`. |
| Js.ToStringThrows | app/api/generate/route.ts:115 | Whether `String(v)` throws on a JSON value: an object with its own `toString`, or an array holding such a value. `ImageTiers.TitleRejects` gives its meaning. |
| Text.Contains | app/api/generate/route.ts:25 | `includes` on a string: the pattern occurs at some index. `OgImage.SkippedMakesNoRequest` and `Fences.StripFences` state what it decides. |
| Text.RemoveAll | app/api/generate/route.ts:92 | `replace(/lit/g, '')`: occurrences are removed left to right, and the result is no longer than the input. `Fences.NoFenceLeft` and `Text.RemoveAllAbsent` give its meaning. |
| OgImage.Skipped | app/api/generate/route.ts:25 | The guard `!url \|\| url.includes('google.com')`, with the `includes` of a string or an array. `OgImage.SkippedMakesNoRequest` gives its meaning. |
| OgImage.StatusOk | app/api/generate/route.ts:36 | `res.ok`: a status from 200 to 299. `OgImage.FetchOgImage` states that only such a page yields an image. |
| Prompt.UserPrompt | app/api/generate/route.ts:60-63 | The four-line template. `Prompt.PayloadLines` states its lines. |
| Prompt.Payload | app/api/generate/route.ts:76 | `SYSTEM_PROMPT + "\n" + userPrompt`. `Prompt.PayloadLines`, `Prompt.KidSentenceIncluded` and `Handler.BuildPayload` state its content. |

## Left out

- The HTTP requests to the generation service, the recipe pages and the photo search (route.ts:30-37, 72-80, 115-117). Their outcomes are parameters:
  - a thrown request, or one whose body is unreadable;
  - a status and page text;
  - a JSON reply.
- The request URLs: the generation endpoint with `GOOGLE_API_KEY`, and the photo-search query built with `encodeURIComponent(recipe.title)`. They only feed requests that are parameters here.
- The 3-second `AbortController` timeout and the `User-Agent` header. A timed-out page request is one more way for the page outcome to throw.
- `Promise.all` concurrency. The callbacks are run one after another. Their outcomes do not depend on each other, so the resulting array and the choice between success and rejection are the same.
- `JSON.parse` is an oracle from text to an optional value. No JSON parser is modelled.
- `request.json()` and the destructuring of the body (route.ts:48-49) run outside the `try`. The model starts from the five fields. `count`, `diet` and `people` are given as the strings the template renders, so `String()` of numbers and other values is not modelled.
- Reading the environment (route.ts:65-66) is a parameter. Only the trimming of the photo-search key is modelled.
- `console.log` and `console.error`.
- Prompt.KidSentenceIncluded: holds in one direction only. The converse fails when `count`, `diet` or `people` contain the sentence themselves. The exact statement is the kid-friendly line in `Prompt.PayloadLines`.
- Prompt.PayloadLines: assumes `count`, `diet` and `people` have no newline. With a newline the request line splits into several lines.
- The order of the keys of the returned objects. Maps have no key order.
- `encodeURIComponent` throws on a lone surrogate. Strings here cannot hold one, so that case of the search tier is not modelled.
- Strings are sequences of Unicode scalar values, not UTF-16 code units. This only matters when a string recipe is spread.
- `app/layout.tsx` (page shell, fonts and metadata) is not part of this model.
