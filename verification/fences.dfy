/** The code-fence pattern both adapters search model replies with,
    ```` ```(?:json)?\s*([\s\S]*?)\s*``` ````: three backticks, an optional `json` tag, then
    everything up to the next three backticks. The adapters strip what the first match
    captures, so the capture's own leading and trailing whitespace plays no part. */
module Fences {
  import opened Wrappers
  import opened Text

  const Fence: string := "```"
  const Tag: string := "json"

  /** Where the captured text of a fence opened at `p` starts: after the tag when the tag
      follows the backticks (the optional group is greedy). */
  function BodyStart(text: string, p: nat): nat {
    if OccursAt(text, Tag, p + |Fence|) then p + |Fence| + |Tag| else p + |Fence|
  }

  /** `re.findall(pattern, text)[0].strip()`, or `None` when the pattern does not match.
      A match starts at the first fence whenever there is one: a later start would need a
      closing fence after it, which would close the first one as well. */
  function FirstFence(text: string): (r: Option<string>)
    ensures r.Some? ==> Contains(text, Fence) && !Contains(r.value, Fence)
  {
    var p := FindFrom(text, Fence, 0);
    if p == -1 then None
    else
      var s := BodyStart(text, p);
      var q := FindFrom(text, Fence, s);
      if q == -1 then None
      else
        BodyHasNoFence(text, s, q);
        Some(Strip(text[s..q]))
  }

  /** The text between a body start and the first fence after it holds no fence, and
      neither does any infix of it. */
  lemma BodyHasNoFence(text: string, s: nat, q: int)
    requires s <= q && OccursAt(text, Fence, q)
    requires forall i :: s <= i < q ==> !OccursAt(text, Fence, i)
    ensures !Contains(Strip(text[s..q]), Fence)
  {
    NoOccurrenceInInfix(text, Fence, s, q, 0, q - s);
    assert text[s..q][0..q - s] == text[s..q];
    StripKeepsAbsence(text[s..q], Fence);
  }

  /** When `sub` starts nowhere in `[s, q)`, no infix of `text[s..q]` contains it. */
  lemma NoOccurrenceInInfix(text: string, sub: string, s: nat, q: nat, a: nat, b: nat)
    requires sub != [] && s <= q <= |text| && a <= b <= q - s
    requires forall i :: s <= i < q ==> !OccursAt(text, sub, i)
    ensures !Contains(text[s..q][a..b], sub)
  {
    var r := text[s..q][a..b];
    forall j | 0 <= j ensures !OccursAt(r, sub, j) {
      if OccursAt(r, sub, j) {
        OccursInSlice(text[s..q], sub, a, b, j);
        OccursInSlice(text, sub, s, q, a + j);
      }
    }
    ContainsIff(r, sub);
  }

  /** A text that opens with prose free of backticks, then one fence with an optional tag,
      a body free of backticks and a closing fence, has that body (stripped) as its first
      fence, whatever follows. Without a tag the body must not itself begin with the tag's
      first letter. */
  lemma FenceFound(prose: string, tagged: bool, body: string, rest: string)
    requires '`' !in prose && '`' !in body
    requires !tagged ==> body == [] || body[0] != 'j'
    ensures FirstFence(prose + Fence + (if tagged then Tag else "") + body + Fence + rest) == Some(Strip(body))
  {
    var tag := if tagged then Tag else "";
    var text := prose + Fence + tag + body + Fence + rest;
    var p := |prose|;
    FenceOpens(prose, tag, body, rest);
    var s := p + 3 + |tag|;
    TagSkipped(prose, tagged, body, rest);
    FindPast(prose + Fence + tag, body, Fence, rest);
    BodyCut(prose, tag, body, rest);
    FirstFenceAt(text, p, s, body);
  }

  /** The search for the opening fence stops at the end of prose free of backticks. */
  lemma FenceOpens(prose: string, tag: string, body: string, rest: string)
    requires '`' !in prose
    ensures FindFrom(prose + Fence + tag + body + Fence + rest, Fence, 0) == |prose|
  {
    FindPast([], prose, Fence, tag + body + Fence + rest);
    assert [] + prose + Fence + (tag + body + Fence + rest) == prose + Fence + tag + body + Fence + rest;
  }

  /** The body sits between the tag and the closing fence. */
  lemma BodyCut(prose: string, tag: string, body: string, rest: string)
    ensures var s := |prose| + |Fence| + |tag|;
      (prose + Fence + tag + body + Fence + rest)[s..s + |body|] == body
  {
  }

  /** The first fence of a text, from the positions the search finds. */
  lemma FirstFenceAt(text: string, p: nat, s: nat, body: string)
    requires FindFrom(text, Fence, 0) == p && BodyStart(text, p) == s
    requires FindFrom(text, Fence, s) == s + |body| && s + |body| <= |text| && text[s..s + |body|] == body
    ensures FirstFence(text) == Some(Strip(body))
  {
  }

  /** In the text of `FenceFound`, the body starts right after the tag when there is one
      and right after the opening fence otherwise. */
  lemma TagSkipped(prose: string, tagged: bool, body: string, rest: string)
    requires !tagged ==> body == [] || body[0] != 'j'
    ensures var tag := if tagged then Tag else "";
      BodyStart(prose + Fence + tag + body + Fence + rest, |prose|) == |prose| + |Fence| + |tag|
  {
    var tag := if tagged then Tag else "";
    var text := prose + Fence + tag + body + Fence + rest;
    var p := |prose|;
    if tagged {
      assert text[p + 3..p + 7] == Tag;
    } else {
      assert text[p + 3] == (if body == [] then '`' else body[0]);
      assert !OccursAt(text, Tag, p + 3) by {
        if p + 7 <= |text| {
          assert text[p + 3..p + 7][0] == text[p + 3];
        }
      }
    }
  }

  /** A text without a backtick has no fence. */
  lemma NoBacktickNoFence(text: string)
    requires '`' !in text
    ensures FirstFence(text) == None
  {
    MissingCharNotContained(text, Fence, '`');
  }
}
