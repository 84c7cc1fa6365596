/** String operations the pages use: `String.prototype.includes` and a global
    `String.prototype.replace(/p/g, '')`, plus the code-fence stripping applied
    to the generative model's reply before it is parsed. */
module Strings {

  /** `s.includes(p)`: p occurs in s as a contiguous block. The empty text
      occurs in every text, and nothing longer than s occurs in s. */
  predicate Contains(s: string, p: string)
    ensures p == [] ==> Contains(s, p)
    ensures Contains(s, p) ==> |p| <= |s|
    decreases |s|
  {
    if |s| < |p| then false
    else s[..|p|] == p || Contains(s[1..], p)
  }

  /** p occurs in s starting at index i. */
  predicate OccursAt(s: string, p: string, i: int)
  {
    0 <= i <= |s| - |p| && s[i..i + |p|] == p
  }

  /** Contains agrees with the positional definition of "substring". */
  lemma {:induction false} ContainsAt(s: string, p: string)
    ensures Contains(s, p) <==> exists i :: OccursAt(s, p, i)
    decreases |s|
  {
    if |s| >= |p| {
      if s[..|p|] == p {
        assert OccursAt(s, p, 0);
      } else {
        ContainsAt(s[1..], p);
        if Contains(s[1..], p) {
          var i :| OccursAt(s[1..], p, i);
          assert s[i + 1..i + 1 + |p|] == s[1..][i..i + |p|];
          assert OccursAt(s, p, i + 1);
        }
        if exists i :: OccursAt(s, p, i) {
          var i :| OccursAt(s, p, i);
          assert i > 0;
          assert s[1..][i - 1..i - 1 + |p|] == s[i..i + |p|];
          assert OccursAt(s[1..], p, i - 1);
        }
      }
    }
  }

  /** A block b placed between any a and c is found by Contains. */
  lemma ContainsMiddle(a: string, b: string, c: string)
    ensures Contains(a + b + c, b)
  {
    var s := a + b + c;
    assert s[|a|..|a| + |b|] == b;
    assert OccursAt(s, b, |a|);
    ContainsAt(s, b);
  }

  /** Each of three blocks placed between fixed pieces of text is found in the result. */
  lemma MentionsEach(p1: string, x: string, p2: string, y: string, p3: string, z: string, p4: string)
    ensures Contains(p1 + x + p2 + y + p3 + z + p4, x)
    ensures Contains(p1 + x + p2 + y + p3 + z + p4, y)
    ensures Contains(p1 + x + p2 + y + p3 + z + p4, z)
  {
    var s := p1 + x + p2 + y + p3 + z + p4;
    ContainsMiddle(p1, x, p2 + y + p3 + z + p4);
    assert s == p1 + x + (p2 + y + p3 + z + p4);
    ContainsMiddle(p1 + x + p2, y, p3 + z + p4);
    assert s == (p1 + x + p2) + y + (p3 + z + p4);
    ContainsMiddle(p1 + x + p2 + y + p3, z, p4);
  }

  /** A text that contains p + q contains p. */
  lemma ContainsPrefixOfPattern(s: string, p: string, q: string)
    requires Contains(s, p + q)
    ensures Contains(s, p)
  {
    ContainsAt(s, p + q);
    var i :| OccursAt(s, p + q, i);
    assert s[i..i + |p|] == (p + q)[..|p|];
    assert OccursAt(s, p, i);
    ContainsAt(s, p);
  }

  /** `s.replace(/p/g, '')`: scan left to right and drop every
      non-overlapping occurrence of p. */
  function RemoveAll(s: string, p: string): (r: string)
    requires p != ""
    ensures |r| <= |s|
    ensures !Contains(s, p) ==> r == s
    decreases |s|
  {
    if |s| < |p| then s
    else if s[..|p|] == p then RemoveAll(s[|p|..], p)
    else [s[0]] + RemoveAll(s[1..], p)
  }

  const Fence: string := "```"
  const JsonFence: string := "```json"

  /** The cleaning applied to the model's reply before `JSON.parse`
      (pages/AIConfigurator.tsx): first every "```json", then every "```". */
  function StripFences(text: string): (r: string)
    ensures |r| <= |text|
    ensures !Contains(r, Fence)
  {
    RemoveFenceLeavesNone(RemoveAll(text, JsonFence));
    RemoveAll(RemoveAll(text, JsonFence), Fence)
  }

  /** Removal keeps a first character that cannot start a fence. */
  lemma RemoveFenceKeepsHead(t: string)
    requires |t| > 0 && t[0] != '`'
    ensures |RemoveAll(t, Fence)| > 0 && RemoveAll(t, Fence)[0] == t[0]
  {
  }

  /** Dropping every "```" left to right leaves none behind: a block kept
      just before a removed fence never ends in a backtick, so no new fence
      forms where pieces are joined. */
  lemma {:induction false} RemoveFenceLeavesNone(s: string)
    ensures !Contains(RemoveAll(s, Fence), Fence)
    decreases |s|
  {
    if |s| < |Fence| {
    } else if s[..|Fence|] == Fence {
      RemoveFenceLeavesNone(s[|Fence|..]);
    } else {
      var t := s[1..];
      RemoveFenceLeavesNone(t);
      var rt := RemoveAll(t, Fence);
      var r := [s[0]] + rt;
      assert RemoveAll(s, Fence) == r;
      assert r[1..] == rt;
      if |r| >= 3 && s[0] == '`' {
        if s[1] != '`' {
          RemoveFenceKeepsHead(t);
        } else {
          assert s[2] != '`';
          RemoveFenceKeepsHead(t[1..]);
          assert rt == [t[0]] + RemoveAll(t[1..], Fence);
        }
      }
    }
  }

  /** After stripping, the text holds no code fence at all. */
  lemma StripFencesLeavesNoFence(text: string)
    ensures !Contains(StripFences(text), Fence)
    ensures !Contains(StripFences(text), JsonFence)
  {
    RemoveFenceLeavesNone(RemoveAll(text, JsonFence));
    if Contains(StripFences(text), JsonFence) {
      assert JsonFence == Fence + "json";
      ContainsPrefixOfPattern(StripFences(text), Fence, "json");
    }
  }

  /** A reply without fences is passed to the parser unchanged, and
      stripping twice is the same as stripping once. */
  lemma StripFencesIdempotent(text: string)
    ensures !Contains(text, Fence) ==> StripFences(text) == text
    ensures StripFences(StripFences(text)) == StripFences(text)
  {
    if !Contains(text, Fence) && Contains(text, JsonFence) {
      assert JsonFence == Fence + "json";
      ContainsPrefixOfPattern(text, Fence, "json");
    }
    StripFencesLeavesNoFence(text);
  }
}
