/**
 * The `POST` handler of the recipe route (app/api/generate/route.ts:47-133):
 * build the prompt, ask the generation service, unwrap and parse its text,
 * give every recipe an image, and answer with the recipes or an error body.
 *
 * The outside world is a set of parameters: the generation service's answer
 * as a function of the payload it is sent, `JSON.parse` as a function from
 * text to an optional value, and the page and photo search seen by the
 * recipe at each position.
 */
module Handler {
  import opened Wrappers
  import opened Js
  import opened Text
  import opened Fences
  import opened Prompt
  import opened ImageTiers

  /** How the generation request ended: it threw (network error, unreadable JSON), or JSON arrived. */
  datatype GeminiOutcome = GeminiThrew | GeminiReplied(data: Value)

  /** The response: the recipes as a JSON array (status 200), or an error status with a JSON object. */
  datatype Reply = Served(recipes: seq<map<string, Value>>) | Failed(status: int, body: map<string, Value>)

  /** The outer `catch`: whatever threw inside the `try`. */
  const ServerError := Failed(500, map["error" := Str("Failed to generate recipes")])

  /** The inner `catch` around `JSON.parse`. */
  const InvalidJson := Failed(500, map["error" := Str("AI returned invalid JSON")])

  /** `(process.env.UNSPLASH_ACCESS_KEY || '').trim()`; an unset variable reads as the empty string. */
  function UnsplashKey(env: Option<string>): (r: string)
    ensures IsTrimmed(r)
    ensures env.Some? ==> TrimmedAt(env.value, r, LeadingSpaces(env.value))
    ensures env.None? ==> r == ""
  {
    Trim(env.GetOr(""))
  }

  /** The upstream error message if it is truthy, otherwise the fixed sentence. */
  function Details(data: Value): (r: Value)
    ensures Truthy(r)
    ensures r == OptMember(OptMember(data, "error"), "message") || r == Str("No candidates returned.")
  {
    var message := OptMember(OptMember(data, "error"), "message");
    if Truthy(message) then message else Str("No candidates returned.")
  }

  /** The reply to an answer without `candidates`. */
  function ApiError(data: Value): (r: Reply)
    ensures r.Failed? && r.status == 500
    ensures r.body.Keys == {"error", "details"}
    ensures r.body["error"] == Str("API Error") && Truthy(r.body["details"])
  {
    Failed(500, map["error" := Str("API Error"), "details" := Details(data)])
  }

  /** `data.candidates[0].content.parts[0].text`, throwing at the first nullish step. */
  function CandidateText(data: Value): (r: Completion<Value>)
    ensures
      var c0 := OptMember(data, "candidates");
      var c1 := OptIndex(c0, 0);
      var c2 := OptMember(c1, "content");
      var c3 := OptMember(c2, "parts");
      var c4 := OptIndex(c3, 0);
      (r.Threw? <==> Nullish(data) || Nullish(c0) || Nullish(c1) || Nullish(c2) || Nullish(c3) || Nullish(c4))
      && (r.Returned? ==> r.value == OptMember(c4, "text"))
  {
    match Member(data, "candidates")
    case Threw => Threw
    case Returned(candidates) =>
      match Index(candidates, 0)
      case Threw => Threw
      case Returned(first) =>
        match Member(first, "content")
        case Threw => Threw
        case Returned(content) =>
          match Member(content, "parts")
          case Threw => Threw
          case Returned(parts) =>
            match Index(parts, 0)
            case Threw => Threw
            case Returned(part) => Member(part, "text")
  }

  /**
   * `Promise.all(recipes.map(callback))`: every recipe enriched, in order, or
   * a rejection as soon as one callback throws.
   */
  function EnrichAll(items: seq<Value>, io: nat -> ImageIo, key: string): (r: Completion<seq<map<string, Value>>>)
    ensures r.Threw? <==> exists k :: 0 <= k < |items| && EnrichOne(items[k], io(k), key).Threw?
    ensures r.Returned? ==>
              |r.value| == |items|
              && forall k :: 0 <= k < |items| ==> Returned(r.value[k]) == EnrichOne(items[k], io(k), key)
    decreases |items|
  {
    if items == [] then Returned([])
    else
      var n := |items| - 1;
      match EnrichAll(items[..n], io, key)
      case Threw => Threw
      case Returned(front) =>
        match EnrichOne(items[n], io(n), key)
        case Threw => Threw
        case Returned(last) => Returned(front + [last])
  }

  /**
   * What the handler answers once the generation service has answered: the
   * checks on the answer, the cleaning and parsing of its text, and the
   * enrichment of the parsed recipes under the trimmed photo-search key.
   */
  function Respond(answer: GeminiOutcome, parse: string -> Option<Value>, key: string, io: nat -> ImageIo): (r: Reply)
    ensures r.Failed? ==> r.status == 500 && "error" in r.body
    ensures r.Served? ==> answer.GeminiReplied? && Truthy(OptMember(answer.data, "candidates"))
  {
    match answer
    case GeminiThrew => ServerError
    case GeminiReplied(data) =>
      match Member(data, "candidates")
      case Threw => ServerError
      case Returned(candidates) =>
        if !Truthy(candidates) then ApiError(data)
        else
          match CandidateText(data)
          case Threw => ServerError
          case Returned(text) =>
            // `text.replace` exists only on strings
            if !text.Str? then ServerError
            else
              match parse(StripFences(text.s))
              case None => InvalidJson
              case Some(recipes) =>
                // `recipes.map` exists only on arrays
                if !recipes.Arr? then ServerError
                else
                  match EnrichAll(recipes.items, io, key)
                  case Threw => ServerError
                  case Returned(enhanced) => Served(enhanced)
  }

  /** The `priorityInstruction` chain: start from the default, overwrite it on an exact match. */
  method SelectInstruction(priority: Value) returns (priorityInstruction: string)
    ensures priorityInstruction == PriorityInstruction(priority)
  {
    priorityInstruction := BalancedInstruction;
    if priority == Str("Cheaper Ingredients") {
      priorityInstruction := CheaperInstruction;
    } else if priority == Str("Fewer Ingredients") {
      priorityInstruction := FewerInstruction;
    } else if priority == Str("Fancier Meals") {
      priorityInstruction := FancierInstruction;
    }
  }

  /** Enriching one more recipe extends the enriched prefix by that recipe. */
  lemma EnrichAllExtend(items: seq<Value>, i: nat, io: nat -> ImageIo, key: string,
                        front: seq<map<string, Value>>, last: map<string, Value>)
    requires i < |items|
    requires EnrichAll(items[..i], io, key) == Returned(front)
    requires EnrichOne(items[i], io(i), key) == Returned(last)
    ensures EnrichAll(items[..i + 1], io, key) == Returned(front + [last])
  {
    var prefix := items[..i + 1];
    assert prefix[..i] == items[..i];
    assert prefix[i] == items[i];
  }

  /** The callbacks of `recipes.map`, run one after another; the first throw rejects the lot. */
  method EnrichRecipes(items: seq<Value>, io: nat -> ImageIo, key: string)
    returns (result: Completion<seq<map<string, Value>>>)
    ensures result == EnrichAll(items, io, key)
  {
    var enhanced: seq<map<string, Value>> := [];
    for i := 0 to |items|
      invariant EnrichAll(items[..i], io, key) == Returned(enhanced)
    {
      var one := ResolveImage(items[i], io(i), key);
      if one.Threw? {
        assert EnrichOne(items[i], io(i), key).Threw?;
        return Threw;
      }
      EnrichAllExtend(items, i, io, key, enhanced, one.value);
      enhanced := enhanced + [one.value];
    }
    assert items[..|items|] == items;
    return Returned(enhanced);
  }

  /** The text the route sends: the system prompt, a newline and the per-request prompt. */
  method BuildPayload(req: Request) returns (payload: string)
    ensures payload == Payload(req)
  {
    var priorityInstruction := SelectInstruction(req.priority);
    var userPrompt := UserPrompt(req.count, req.diet, req.people, req.kidFriendly, priorityInstruction);
    payload := SystemPrompt + "\n" + userPrompt;
  }

  /** The steps after the generation service has answered, each failure returning at once. */
  method Answer(response: GeminiOutcome, parse: string -> Option<Value>, key: string, io: nat -> ImageIo)
    returns (reply: Reply)
    ensures reply == Respond(response, parse, key, io)
  {
    if response.GeminiThrew? {
      return ServerError;
    }
    var data := response.data;
    var candidates := Member(data, "candidates");
    if candidates.Threw? {
      return ServerError;
    }
    if !Truthy(candidates.value) {
      return ApiError(data);
    }
    var text := CandidateText(data);
    if text.Threw? || !text.value.Str? {
      return ServerError;
    }
    var recipes := parse(StripFences(text.value.s));
    if recipes.None? {
      return InvalidJson;
    }
    if !recipes.value.Arr? {
      return ServerError;
    }
    var enhanced := EnrichRecipes(recipes.value.items, io, key);
    if enhanced.Threw? {
      return ServerError;
    }
    reply := Served(enhanced.value);
  }

  /**
   * The handler as the route runs it: it returns the payload it sends to the
   * generation service and the reply to that service's answer.
   */
  method Post(req: Request, unsplashEnv: Option<string>, gemini: string -> GeminiOutcome,
              parse: string -> Option<Value>, io: nat -> ImageIo)
    returns (payload: string, reply: Reply)
    ensures payload == Payload(req)
    ensures reply == Respond(gemini(payload), parse, UnsplashKey(unsplashEnv), io)
  {
    payload := BuildPayload(req);
    var unsplashAccessKey := UnsplashKey(unsplashEnv);
    reply := Answer(gemini(payload), parse, unsplashAccessKey, io);
  }

  /** Whenever the generation service answers without `candidates`, the reply is the fixed API-error body. */
  lemma MissingCandidates(data: Value, parse: string -> Option<Value>, key: string, io: nat -> ImageIo)
    requires !Nullish(data) && !Truthy(OptMember(data, "candidates"))
    ensures var message := OptMember(OptMember(data, "error"), "message");
      Respond(GeminiReplied(data), parse, key, io) ==
        Failed(500, map["error" := Str("API Error"),
                        "details" := if Truthy(message) then message else Str("No candidates returned.")])
  {
  }

  /**
   * Every malformed reply throws inside the `try`, so the outer `catch` gives the
   * generic server error. This covers a service call that throws, a nullish
   * reply, and a broken `candidates[0].content.parts[0].text` path. It also
   * covers a non-string text, which has no `replace`, and a parsed value that
   * is not an array, which has no `map`.
   */
  lemma MalformedReplyFails(answer: GeminiOutcome, parse: string -> Option<Value>, key: string, io: nat -> ImageIo)
    requires answer.GeminiThrew?
             || (answer.GeminiReplied? &&
                 (Nullish(answer.data)
                  || (Truthy(OptMember(answer.data, "candidates")) &&
                      (var t := CandidateText(answer.data);
                       t.Threw? || !t.value.Str?
                       || (parse(StripFences(t.value.s)).Some? && !parse(StripFences(t.value.s)).value.Arr?)))))
    ensures Respond(answer, parse, key, io) == ServerError
  {
  }

  /** Text that does not parse always gets the fixed invalid-JSON body, whatever the images would have been. */
  lemma UnparseableText(data: Value, parse: string -> Option<Value>, key: string, io: nat -> ImageIo, text: string)
    requires Truthy(OptMember(data, "candidates"))
    requires CandidateText(data) == Returned(Str(text))
    requires parse(StripFences(text)) == None
    ensures Respond(GeminiReplied(data), parse, key, io) == InvalidJson
  {
  }

  /**
   * A successful reply holds one recipe per parsed element, in order, each
   * the element's own fields with `imageUrl` set to the image chosen for it.
   */
  lemma ServedRecipes(data: Value, parse: string -> Option<Value>, key: string, io: nat -> ImageIo, text: string,
                      items: seq<Value>)
    requires Truthy(OptMember(data, "candidates"))
    requires CandidateText(data) == Returned(Str(text))
    requires parse(StripFences(text)) == Some(Arr(items))
    requires forall k :: 0 <= k < |items| ==> ImageFor(items[k], io(k), key).Returned?
    ensures var reply := Respond(GeminiReplied(data), parse, key, io);
      reply.Served? && |reply.recipes| == |items|
      && forall k :: 0 <= k < |items| ==>
           reply.recipes[k] == Spread(items[k])["imageUrl" := ImageFor(items[k], io(k), key).value]
  {
    forall k | 0 <= k < |items|
      ensures EnrichOne(items[k], io(k), key).Returned?
    {
    }
    var enriched := EnrichAll(items, io, key);
    assert enriched.Returned?;
    assert Respond(GeminiReplied(data), parse, key, io) == Served(enriched.value);
  }

  /** Any recipe whose image lookup throws turns the whole reply into the generic server error. */
  lemma OneFailureFailsAll(data: Value, parse: string -> Option<Value>, key: string, io: nat -> ImageIo,
                           text: string, items: seq<Value>, k: nat)
    requires Truthy(OptMember(data, "candidates"))
    requires CandidateText(data) == Returned(Str(text))
    requires parse(StripFences(text)) == Some(Arr(items))
    requires k < |items| && ImageFor(items[k], io(k), key).Threw?
    ensures Respond(GeminiReplied(data), parse, key, io) == ServerError
  {
  }
}
