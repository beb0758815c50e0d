/**
 * String operations the route performs: substring search, global removal of a
 * literal (`s.replace(/lit/g, '')`), JavaScript's `trim`, and splitting into lines.
 */
module Text {

  /** `p` occurs in `s` starting at index `i`. */
  predicate OccursAt(s: string, p: string, i: nat) {
    i + |p| <= |s| && s[i..i + |p|] == p
  }

  /** `s.includes(p)`. */
  predicate Contains(s: string, p: string) {
    exists i: nat :: i <= |s| && OccursAt(s, p, i)
  }

  /** An occurrence after a leading character is an occurrence in the rest. */
  lemma OccursAfterCons(c: char, t: string, p: string, i: nat)
    requires i > 0 && OccursAt([c] + t, p, i)
    ensures OccursAt(t, p, i - 1)
  {
    assert ([c] + t)[i..i + |p|] == t[i - 1..i - 1 + |p|];
  }

  /** An occurrence inside a slice is an occurrence in the whole string. */
  lemma {:induction false} ContainsSlice(s: string, lo: nat, hi: nat, p: string)
    requires lo <= hi <= |s|
    requires Contains(s[lo..hi], p)
    ensures Contains(s, p)
  {
    var i: nat :| i <= |s[lo..hi]| && OccursAt(s[lo..hi], p, i);
    var inner, outer := s[lo..hi][i..i + |p|], s[lo + i..lo + i + |p|];
    assert forall k :: 0 <= k < |p| ==> inner[k] == outer[k];
    assert OccursAt(s, p, lo + i);
  }

  /** An occurrence in either part is an occurrence in the concatenation. */
  lemma ContainsAppend(a: string, b: string, p: string)
    requires Contains(a, p) || Contains(b, p)
    ensures Contains(a + b, p)
  {
    if Contains(a, p) {
      var i: nat :| i <= |a| && OccursAt(a, p, i);
      assert (a + b)[i..i + |p|] == a[i..i + |p|];
      assert OccursAt(a + b, p, i);
    } else {
      var i: nat :| i <= |b| && OccursAt(b, p, i);
      assert (a + b)[|a| + i..|a| + i + |p|] == b[i..i + |p|];
      assert OccursAt(a + b, p, |a| + i);
    }
  }

  /**
   * `s.replace(/p/g, '')` for a literal pattern: scanning left to right, every
   * occurrence that starts where the scan stands is dropped and the scan
   * resumes after it; otherwise one character is kept.
   */
  function RemoveAll(s: string, p: string): (r: string)
    requires p != []
    ensures |r| <= |s|
    decreases |s|
  {
    if OccursAt(s, p, 0) then
      assert s == s[..|p|] + s[|p|..];
      RemoveAll(s[|p|..], p)
    else if s == [] then []
    else
      assert s == [s[0]] + s[1..];
      [s[0]] + RemoveAll(s[1..], p)
  }

  /** Removing a pattern that does not occur leaves the string unchanged. */
  lemma {:induction false} RemoveAllAbsent(s: string, p: string)
    requires p != []
    requires !Contains(s, p)
    ensures RemoveAll(s, p) == s
    decreases |s|
  {
    assert !OccursAt(s, p, 0);
    if s != [] {
      forall i: nat | i <= |s[1..]| && OccursAt(s[1..], p, i)
        ensures OccursAt(s, p, i + 1)
      {
        assert s[1..][i..i + |p|] == s[i + 1..i + 1 + |p|];
      }
      RemoveAllAbsent(s[1..], p);
    }
  }

  /** No occurrence can start inside a prefix that lacks the pattern's first character. */
  lemma {:induction false} RemoveAllSkipsPrefix(x: string, y: string, p: string)
    requires p != []
    requires forall k :: 0 <= k < |x| ==> x[k] != p[0]
    ensures RemoveAll(x + y, p) == x + RemoveAll(y, p)
    decreases |x|
  {
    if x == [] {
      assert x + y == y;
    } else {
      var s := x + y;
      assert s[0] == x[0];
      assert !OccursAt(s, p, 0) by {
        if |p| <= |s| { assert s[..|p|][0] == s[0]; }
      }
      assert RemoveAll(s, p) == [s[0]] + RemoveAll(s[1..], p);
      assert s[1..] == x[1..] + y;
      RemoveAllSkipsPrefix(x[1..], y, p);
    }
  }

  /** The characters JavaScript's `trim` removes: WhiteSpace and LineTerminator. */
  const Spaces: set<char> := {
    '\t', '\n', '\U{000B}', '\U{000C}', '\r', ' ', '\U{00A0}', '\U{1680}',
    '\U{2000}', '\U{2001}', '\U{2002}', '\U{2003}', '\U{2004}', '\U{2005}',
    '\U{2006}', '\U{2007}', '\U{2008}', '\U{2009}', '\U{200A}',
    '\U{2028}', '\U{2029}', '\U{202F}', '\U{205F}', '\U{3000}', '\U{FEFF}'
  }

  predicate IsSpace(c: char) {
    c in Spaces
  }

  predicate AllSpace(s: string) {
    forall k :: 0 <= k < |s| ==> IsSpace(s[k])
  }

  /** Neither end of `s` is a space character. */
  predicate IsTrimmed(s: string) {
    s == [] || (!IsSpace(s[0]) && !IsSpace(s[|s| - 1]))
  }

  /** The number of spaces `s` starts with. */
  function LeadingSpaces(s: string): (n: nat)
    ensures n <= |s|
    ensures forall k :: 0 <= k < n ==> IsSpace(s[k])
    ensures n < |s| ==> !IsSpace(s[n])
    decreases |s|
  {
    if s != [] && IsSpace(s[0]) then 1 + LeadingSpaces(s[1..]) else 0
  }

  /** The length of `s` without its trailing spaces. */
  function ContentEnd(s: string): (n: nat)
    ensures n <= |s|
    ensures forall k :: n <= k < |s| ==> IsSpace(s[k])
    ensures 0 < n ==> !IsSpace(s[n - 1])
    decreases |s|
  {
    if s != [] && IsSpace(s[|s| - 1]) then ContentEnd(s[..|s| - 1]) else |s|
  }

  /** `r` is `s` with only spaces removed from its two ends, the first `i` of them at the front. */
  predicate TrimmedAt(s: string, r: string, i: nat) {
    i + |r| <= |s| && s[i..i + |r|] == r && AllSpace(s[..i]) && AllSpace(s[i + |r|..])
  }

  /** `s.trim()`: what is left once the spaces at both ends are cut off. */
  function Trim(s: string): (r: string)
    ensures IsTrimmed(r)
    ensures TrimmedAt(s, r, LeadingSpaces(s))
  {
    var lo := LeadingSpaces(s);
    var t := s[lo..];
    var hi := ContentEnd(t);
    assert hi > 0 ==> t[0] == s[lo];
    assert s[lo..lo + hi] == t[..hi];
    assert s[lo + hi..] == t[hi..];
    t[..hi]
  }

  /** Trimming cannot create an occurrence: the trimmed string is a slice of the original. */
  lemma TrimKeepsAbsent(s: string, p: string)
    requires !Contains(s, p)
    ensures !Contains(Trim(s), p)
  {
    var lo := LeadingSpaces(s);
    var r := Trim(s);
    if Contains(r, p) {
      assert s[lo..lo + |r|] == r;
      ContainsSlice(s, lo, lo + |r|, p);
    }
  }

  /** Cutting spaces off the two ends of `s` leaves at most one trimmed string. */
  lemma TrimUnique(s: string, r1: string, i1: nat, r2: string, i2: nat)
    requires TrimmedAt(s, r1, i1) && IsTrimmed(r1)
    requires TrimmedAt(s, r2, i2) && IsTrimmed(r2)
    ensures r1 == r2
  {
    if r1 == [] || r2 == [] {
      // one of them is empty, so every character of s is a space
      var i := if r1 == [] then i1 else i2;
      forall k | 0 <= k < |s| ensures IsSpace(s[k]) {
        if k < i { assert s[..i][k] == s[k]; } else { assert s[i..][k - i] == s[k]; }
      }
    } else {
      assert r1[0] == s[i1] && r2[0] == s[i2];
      var e1, e2 := i1 + |r1|, i2 + |r2|;
      assert r1[|r1| - 1] == s[e1 - 1] && r2[|r2| - 1] == s[e2 - 1];
    }
  }

  /** Trimming a trimmed string padded with spaces gives that string back. */
  lemma TrimPadded(a: string, m: string, b: string)
    requires AllSpace(a) && AllSpace(b) && IsTrimmed(m)
    ensures Trim(a + m + b) == m
  {
    var s := a + m + b;
    assert s[..|a|] == a && s[|a|..|a| + |m|] == m && s[|a| + |m|..] == b;
    TrimUnique(s, m, |a|, Trim(s), LeadingSpaces(s));
  }

  /** Trimming a trimmed string changes nothing. */
  lemma TrimTrimmed(s: string)
    requires IsTrimmed(s)
    ensures Trim(s) == s
  {
    assert [] + s + [] == s;
    TrimPadded([], s, []);
  }

  /** No character of `s` is a newline. */
  predicate NoNewline(s: string) {
    forall k :: 0 <= k < |s| ==> s[k] != '\n'
  }

  /** `s.split('\n')`. */
  function Lines(s: string): (r: seq<string>)
    ensures |r| >= 1
    decreases |s|
  {
    if s == [] then [""]
    else
      var rest := Lines(s[1..]);
      if s[0] == '\n' then [""] + rest
      else [[s[0]] + rest[0]] + rest[1..]
  }

  /** `lines.join('\n')`. */
  function Join(lines: seq<string>): string
    requires |lines| >= 1
    decreases |lines|
  {
    if |lines| == 1 then lines[0] else lines[0] + "\n" + Join(lines[1..])
  }

  /** Joining one more line in front. */
  lemma JoinCons(x: string, xs: seq<string>)
    requires |xs| >= 1
    ensures Join([x] + xs) == x + "\n" + Join(xs)
  {
    assert ([x] + xs)[0] == x && ([x] + xs)[1..] == xs;
  }

  /** An empty first line joins as a leading newline. */
  lemma JoinEmptyFirst(lines: seq<string>)
    requires |lines| >= 1
    ensures Join([""] + lines) == "\n" + Join(lines)
  {
    JoinCons("", lines);
    assert "" + "\n" == "\n";
  }

  /** Regrouping a character, a line, a newline and the rest. */
  lemma RegroupFront(c: char, head: string, joined: string)
    ensures ([c] + head) + "\n" + joined == [c] + (head + "\n" + joined)
  {
    var first := [c] + head;
    assert first + "\n" == [c] + (head + "\n");
  }

  /** A character put in front of the first of several lines joins as that character in front. */
  lemma JoinExtendFirst(c: char, lines: seq<string>)
    requires |lines| >= 2
    ensures Join([[c] + lines[0]] + lines[1..]) == [c] + Join(lines)
  {
    var head, rest := lines[0], lines[1..];
    JoinCons([c] + head, rest);
    RegroupFront(c, head, Join(rest));
  }

  /** One step of `JoinLines`: a character in front. */
  lemma JoinLinesStep(c: char, t: string)
    requires Join(Lines(t)) == t
    ensures Join(Lines([c] + t)) == [c] + t
  {
    LinesCons(c, t);
    var rest := Lines(t);
    if c == '\n' {
      JoinEmptyFirst(rest);
    } else if |rest| == 1 {
      assert [[c] + rest[0]] + rest[1..] == [[c] + rest[0]];
    } else {
      JoinExtendFirst(c, rest);
    }
  }

  /** Joining the lines of `s` with newlines gives `s` back. */
  lemma {:induction false} JoinLines(s: string)
    ensures Join(Lines(s)) == s
    decreases |s|
  {
    if s != [] {
      JoinLines(s[1..]);
      JoinLinesStep(s[0], s[1..]);
      assert s == [s[0]] + s[1..];
    }
  }

  /** How one more leading character changes the lines. */
  lemma LinesCons(c: char, t: string)
    ensures Lines([c] + t) == ConsLine(c, Lines(t))
  {
    assert ([c] + t)[0] == c && ([c] + t)[1..] == t;
  }

  /** How a leading character changes a list of lines, as `LinesCons` states it. */
  function ConsLine(c: char, lines: seq<string>): seq<string>
    requires |lines| >= 1
  {
    if c == '\n' then [""] + lines else [[c] + lines[0]] + lines[1..]
  }

  /** A leading character changes only the first of two concatenated line lists. */
  lemma ConsLineAppend(c: char, left: seq<string>, right: seq<string>)
    requires |left| >= 1
    ensures ConsLine(c, left + right) == ConsLine(c, left) + right
  {
    if c == '\n' {
      assert [""] + (left + right) == ([""] + left) + right;
    } else {
      var first := [c] + left[0];
      assert (left + right)[0] == left[0];
      assert (left + right)[1..] == left[1..] + right;
      assert [first] + (left[1..] + right) == ([first] + left[1..]) + right;
    }
  }

  /** One step of `LinesAppend`: a character in front of the left side. */
  lemma LinesAppendStep(c: char, a: string, b: string)
    requires Lines(a + "\n" + b) == Lines(a) + Lines(b)
    ensures Lines([c] + a + "\n" + b) == Lines([c] + a) + Lines(b)
  {
    var t := a + "\n" + b;
    assert [c] + a + "\n" + b == [c] + t;
    LinesCons(c, t);
    LinesCons(c, a);
    ConsLineAppend(c, Lines(a), Lines(b));
  }

  /** Splitting at a newline splits the two sides independently. */
  lemma {:induction false} LinesAppend(a: string, b: string)
    ensures Lines(a + "\n" + b) == Lines(a) + Lines(b)
    decreases |a|
  {
    if a == [] {
      assert a + "\n" + b == ['\n'] + b;
      LinesCons('\n', b);
    } else {
      LinesAppend(a[1..], b);
      LinesAppendStep(a[0], a[1..], b);
      assert a == [a[0]] + a[1..];
    }
  }

  /** Whatever precedes the last newline, the lines after it come last. */
  lemma LastLines(a: string, b: string)
    ensures var all, tail := Lines(a + "\n" + b), Lines(b);
      |tail| <= |all| && all[|all| - |tail|..] == tail
  {
    LinesAppend(a, b);
    var left, right := Lines(a), Lines(b);
    assert (left + right)[|left|..] == right;
  }

  /** No line contains a newline. */
  lemma {:induction false} LinesNoNewline(s: string)
    ensures forall k :: 0 <= k < |Lines(s)| ==> NoNewline(Lines(s)[k])
    decreases |s|
  {
    if s != [] {
      LinesNoNewline(s[1..]);
      var rest := Lines(s[1..]);
      if s[0] != '\n' {
        var first := [s[0]] + rest[0];
        assert NoNewline(first) by {
          forall k | 0 <= k < |first| ensures first[k] != '\n' {
            if k > 0 { assert first[k] == rest[0][k - 1]; }
          }
        }
        assert Lines(s) == [first] + rest[1..];
      }
    }
  }

  /** A string without newlines is a single line. */
  lemma {:induction false} OneLine(s: string)
    requires NoNewline(s)
    ensures Lines(s) == [s]
    decreases |s|
  {
    if s != [] {
      OneLine(s[1..]);
      assert s == [s[0]] + s[1..];
    }
  }
}
