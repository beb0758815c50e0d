/**
 * Cleaning the model's reply before it is parsed (app/api/generate/route.ts:92):
 * every "```json" is removed, then every "```", then the ends are trimmed.
 */
module Fences {
  import opened Text

  const JsonFence := "```json"
  const Fence := "```"

  /** A backtick at the front of the cleaned text was at the front of the original. */
  lemma RemovedHead(t: string)
    requires var r := RemoveAll(t, Fence); |r| >= 1 && r[0] == '`'
    ensures |t| >= 1 && t[0] == '`'
  {
    if !OccursAt(t, Fence, 0) {
      assert RemoveAll(t, Fence) == [t[0]] + RemoveAll(t[1..], Fence);
    }
  }

  /** Two backticks at the front of the cleaned text were at the front of the original. */
  lemma RemovedHeadTwo(t: string)
    requires var r := RemoveAll(t, Fence); |r| >= 2 && r[0] == '`' && r[1] == '`'
    ensures |t| >= 2 && t[0] == '`' && t[1] == '`'
  {
    if !OccursAt(t, Fence, 0) {
      var rest := RemoveAll(t[1..], Fence);
      assert RemoveAll(t, Fence) == [t[0]] + rest;
      RemovedHead(t[1..]);
    }
  }

  /** A fence at the front of `s[0]` followed by the cleaned rest was a fence at the front of `s`. */
  lemma FrontFenceFromOriginal(s: string)
    requires s != [] && OccursAt([s[0]] + RemoveAll(s[1..], Fence), Fence, 0)
    ensures OccursAt(s, Fence, 0)
  {
    var r := [s[0]] + RemoveAll(s[1..], Fence);
    assert r[0] == '`' && r[1] == '`' && r[2] == '`';
    RemovedHeadTwo(s[1..]);
    assert s[..3] == Fence;
  }

  /** After every "```" is removed, none is left: a removal never joins backticks into a new one. */
  lemma {:induction false} NoFenceLeft(s: string)
    ensures !Contains(RemoveAll(s, Fence), Fence)
    decreases |s|
  {
    if OccursAt(s, Fence, 0) {
      NoFenceLeft(s[3..]);
    } else if s != [] {
      var rest := RemoveAll(s[1..], Fence);
      var r := [s[0]] + rest;
      assert RemoveAll(s, Fence) == r;
      NoFenceLeft(s[1..]);
      forall i: nat | i <= |r| && OccursAt(r, Fence, i)
        ensures false
      {
        if i == 0 {
          FrontFenceFromOriginal(s);
        } else {
          OccursAfterCons(s[0], rest, Fence, i);
        }
      }
    }
  }

  /** `text.replace(/```json/g, '').replace(/```/g, '').trim()`. */
  function StripFences(text: string): (r: string)
    ensures !Contains(r, Fence)
    ensures IsTrimmed(r)
  {
    var unfenced := RemoveAll(RemoveAll(text, JsonFence), Fence);
    NoFenceLeft(RemoveAll(text, JsonFence));
    TrimKeepsAbsent(unfenced, Fence);
    Trim(unfenced)
  }

  /** Text without "```" has no "```json" either. */
  lemma NoJsonFenceWithoutFence(t: string)
    requires !Contains(t, Fence)
    ensures !Contains(t, JsonFence)
  {
    if Contains(t, JsonFence) {
      var i: nat :| i <= |t| && OccursAt(t, JsonFence, i);
      assert t[i..i + 3] == t[i..i + 7][..3];
      assert OccursAt(t, Fence, i);
    }
  }

  /** Cleaning an already cleaned reply changes nothing. */
  lemma StripFencesIdempotent(s: string)
    ensures StripFences(StripFences(s)) == StripFences(s)
  {
    var t := StripFences(s);
    NoJsonFenceWithoutFence(t);
    RemoveAllAbsent(t, JsonFence);
    RemoveAllAbsent(t, Fence);
    TrimTrimmed(t);
  }

  /** A closing fence is too short to hold a "```json". */
  lemma FenceKeepsWithoutJson()
    ensures RemoveAll(Fence, JsonFence) == Fence
  {
    RemoveAllAbsent(Fence, JsonFence);
  }

  /** Removing the opening "```json" of a wrapped reply leaves the body and the closing fence. */
  lemma DropOpeningFence(body: string)
    requires forall k :: 0 <= k < |body| ==> body[k] != '`'
    ensures RemoveAll(JsonFence + (body + Fence), JsonFence) == body + Fence
  {
    var wrapped := JsonFence + (body + Fence);
    assert OccursAt(wrapped, JsonFence, 0);
    assert wrapped[7..] == body + Fence;
    assert RemoveAll(wrapped, JsonFence) == RemoveAll(body + Fence, JsonFence);
    RemoveAllSkipsPrefix(body, Fence, JsonFence);
    FenceKeepsWithoutJson();
  }

  /** Removing "```" from the body and the closing fence leaves the body. */
  lemma DropClosingFence(body: string)
    requires forall k :: 0 <= k < |body| ==> body[k] != '`'
    ensures RemoveAll(body + Fence, Fence) == body
  {
    RemoveAllSkipsPrefix(body, Fence, Fence);
    assert Fence[3..] == [];
    assert RemoveAll(Fence, Fence) == [];
    assert body + [] == body;
  }

  /** A reply wrapped in a ```json fence comes back unwrapped. */
  lemma StripFencesUnwraps(s: string)
    requires '`' !in s
    requires IsTrimmed(s)
    ensures StripFences("```json\n" + s + "\n```") == s
  {
    var body := "\n" + s + "\n";
    assert forall k :: 0 <= k < |body| ==> body[k] != '`';
    assert "```json\n" + s + "\n```" == JsonFence + (body + Fence);
    DropOpeningFence(body);
    DropClosingFence(body);
    TrimPadded("\n", s, "\n");
  }
}
