/**
 * The text sent to the generation service (app/api/generate/route.ts:3-21,
 * 51-63, 76): a fixed system prompt, a newline, and a per-request prompt built
 * from the request's fields and a priority instruction.
 */
module Prompt {
  import opened Js
  import opened Text

  const SystemPrompt :=
    "\nYou are a meal planning API. You do not invent recipes. You find REAL, existing recipes from reputable websites (like AllRecipes, FoodNetwork, SeriousEats, BonAppetit, NYT Cooking, etc).\n"
    + "Structure the response as an array of recipe objects.\n"
    + "Each object must have: \n"
    + "- id (number)\n"
    + "- title (string: The exact title from the website)\n"
    + "- description (short string)\n"
    + "- cuisine (string)\n"
    + "- kidFriendly (boolean)\n"
    + "- rating (number, between 3.0 and 5.0)\n"
    + "- reviewCount (number)\n"
    + "- ingredients (array of objects: {name, amount (number), unit, category, emoji (string)})\n"
    + "- instructions (array of strings - summary of steps)\n"
    + "- servings (number, default 4)\n"
    + "- sourceUrl (string: The ACTUAL URL to the specific recipe on the web. Do NOT use a search query URL.)\n"
    + "\n"
    + "Categories must be one of: Produce, Meat, Pantry, Dairy, Bakery, Spices, Refrigerated.\n"
    + "Minimize food waste by reusing ingredients across recipes where logical.\n"

  // The fixed sentences are written in short pieces so that the verifier can
  // check their characters one piece at a time.
  const BalancedInstruction := "Balance cost, ease, and flavor."
  const CheaperInstruction := "Prioritize recipes known " + "for being budget-friendly."
  const FewerInstruction := "Prioritize recipes with short " + "ingredient lists (5-7 items)."
  const FancierInstruction := "Prioritize highly-rated " + "gourmet recipes."

  const KidSentence := "Select recipes that are " + "generally considered kid-friendly."
  const ClosingLine := "  Return ONLY the JSON array." + " Ensure 'sourceUrl' is " + "a real, valid link."

  /** The request body's fields; `count`, `people` and `diet` as the template renders them. */
  datatype Request = Request(count: string, people: string, diet: string, kidFriendly: Value, priority: Value)

  /**
   * The instruction chosen by strict equality with three literals; any other
   * value, a non-string or a missing one included, gets the balanced default.
   */
  function PriorityInstruction(priority: Value): (r: string)
    ensures r == CheaperInstruction <==> priority == Str("Cheaper Ingredients")
    ensures r == FewerInstruction <==> priority == Str("Fewer Ingredients")
    ensures r == FancierInstruction <==> priority == Str("Fancier Meals")
    ensures r == BalancedInstruction <==>
              priority !in {Str("Cheaper Ingredients"), Str("Fewer Ingredients"), Str("Fancier Meals")}
  {
    if priority == Str("Cheaper Ingredients") then CheaperInstruction
    else if priority == Str("Fewer Ingredients") then FewerInstruction
    else if priority == Str("Fancier Meals") then FancierInstruction
    else BalancedInstruction
  }

  /** `${kidFriendly ? "Select ... kid-friendly." : ""}`. */
  function KidClause(kidFriendly: Value): string {
    if Truthy(kidFriendly) then KidSentence else ""
  }

  /** The first line of the per-request prompt. */
  function RequestLine(count: string, diet: string, people: string): string {
    "Find " + count + " distinct " + diet + " dinner recipes for " + people + " people. "
  }

  /** The second line: two spaces of indent, then the kid-friendly clause. */
  function KidLine(kidFriendly: Value): string {
    "  " + KidClause(kidFriendly)
  }

  /** The third line: two spaces of indent, then the priority instruction. */
  function PriorityLine(instruction: string): string {
    "  " + instruction
  }

  /**
   * The template literal `userPrompt`: four lines, the last three indented by
   * two spaces, written here grouped from the right.
   */
  function UserPrompt(count: string, diet: string, people: string, kidFriendly: Value, instruction: string): string {
    RequestLine(count, diet, people) + "\n"
    + (KidLine(kidFriendly) + "\n" + (PriorityLine(instruction) + "\n" + ClosingLine))
  }

  /** `SYSTEM_PROMPT + "\n" + userPrompt`, the one text part of the generation request. */
  function Payload(req: Request): string {
    SystemPrompt + "\n" + UserPrompt(req.count, req.diet, req.people, req.kidFriendly, PriorityInstruction(req.priority))
  }

  /** The kid-friendly sentence and the closing line are single lines. */
  lemma SentencesOneLine()
    ensures NoNewline(KidSentence) && NoNewline(ClosingLine)
  {
    assert NoNewline("Select recipes that are ") && NoNewline("generally considered kid-friendly.");
    assert NoNewline("  Return ONLY the JSON array.") && NoNewline(" Ensure 'sourceUrl' is ");
    assert NoNewline("a real, valid link.");
  }

  /** Every priority instruction is a single line. */
  lemma InstructionsOneLine()
    ensures NoNewline(BalancedInstruction) && NoNewline(CheaperInstruction)
    ensures NoNewline(FewerInstruction) && NoNewline(FancierInstruction)
  {
    assert NoNewline("Prioritize recipes known ") && NoNewline("for being budget-friendly.");
    assert NoNewline("Prioritize recipes with short ") && NoNewline("ingredient lists (5-7 items).");
    assert NoNewline("Prioritize highly-rated ") && NoNewline("gourmet recipes.");
  }

  /** The request line is one line when the values interpolated into it are. */
  lemma RequestLineOneLine(count: string, diet: string, people: string)
    requires NoNewline(count) && NoNewline(diet) && NoNewline(people)
    ensures NoNewline(RequestLine(count, diet, people))
  {
  }

  /** After any text and a newline, four newline-free strings joined by newlines are the last four lines. */
  lemma LastFourLines(text: string, l1: string, l2: string, l3: string, l4: string)
    requires NoNewline(l1) && NoNewline(l2) && NoNewline(l3) && NoNewline(l4)
    ensures var lines := Lines(text + "\n" + (l1 + "\n" + (l2 + "\n" + (l3 + "\n" + l4))));
      |lines| >= 4 && lines[|lines| - 4..] == [l1, l2, l3, l4]
  {
    OneLine(l1);
    OneLine(l2);
    OneLine(l3);
    OneLine(l4);
    LinesAppend(l3, l4);
    LinesAppend(l2, l3 + "\n" + l4);
    LinesAppend(l1, l2 + "\n" + (l3 + "\n" + l4));
    LastLines(text, l1 + "\n" + (l2 + "\n" + (l3 + "\n" + l4)));
  }

  /**
   * The payload ends with four lines: the request line, the kid-friendly line
   * (blank but for its indent when `kidFriendly` is falsy), the priority line
   * and the closing line; everything before them is the system prompt.
   */
  lemma PayloadLines(req: Request)
    requires NoNewline(req.count) && NoNewline(req.diet) && NoNewline(req.people)
    ensures var lines := Lines(Payload(req));
      |lines| >= 4 &&
      lines[|lines| - 4..] == [
        RequestLine(req.count, req.diet, req.people),
        if Truthy(req.kidFriendly) then "  " + KidSentence else "  ",
        "  " + PriorityInstruction(req.priority),
        ClosingLine]
  {
    var l1 := RequestLine(req.count, req.diet, req.people);
    var l2 := KidLine(req.kidFriendly);
    var l3 := PriorityLine(PriorityInstruction(req.priority));
    SentencesOneLine();
    InstructionsOneLine();
    RequestLineOneLine(req.count, req.diet, req.people);
    assert NoNewline(l2) && NoNewline(l3);
    assert l2 == if Truthy(req.kidFriendly) then "  " + KidSentence else "  ";
    LastFourLines(SystemPrompt, l1, l2, l3, ClosingLine);
  }

  /** The kid-friendly sentence is in the payload whenever `kidFriendly` is truthy. */
  lemma KidSentenceIncluded(req: Request)
    requires Truthy(req.kidFriendly)
    ensures Contains(Payload(req), KidSentence)
  {
    var kid := KidLine(req.kidFriendly);
    var rest := PriorityLine(PriorityInstruction(req.priority)) + "\n" + ClosingLine;
    var u := UserPrompt(req.count, req.diet, req.people, req.kidFriendly, PriorityInstruction(req.priority));
    assert OccursAt(KidSentence, KidSentence, 0);
    ContainsAppend("  ", KidSentence, KidSentence);
    ContainsAppend(kid, "\n", KidSentence);
    ContainsAppend(kid + "\n", rest, KidSentence);
    ContainsAppend(RequestLine(req.count, req.diet, req.people) + "\n", kid + "\n" + rest, KidSentence);
    ContainsAppend(SystemPrompt + "\n", u, KidSentence);
  }
}
