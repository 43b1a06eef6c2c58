/** The few Python `str` operations the routine pipeline relies on: `in`, `index`,
    `rindex`, `strip`, `lower`, `capitalize`, `replace`, `join` and integer formatting. */
module Text {

  /** The characters for which Python's `str.isspace()` holds; `\s` in a `re` pattern on `str`
      matches the same ones. */
  const Whitespace: set<char> := {
    ' ', '\t', '\n', '\U{B}', '\U{C}', '\r', '\U{1C}', '\U{1D}', '\U{1E}', '\U{1F}', '\U{85}', '\U{A0}',
    '\U{1680}', '\U{2000}', '\U{2001}', '\U{2002}', '\U{2003}', '\U{2004}', '\U{2005}', '\U{2006}',
    '\U{2007}', '\U{2008}', '\U{2009}', '\U{200A}', '\U{2028}', '\U{2029}', '\U{202F}', '\U{205F}',
    '\U{3000}'
  }

  predicate IsSpace(c: char) {
    c in Whitespace
  }

  /** `sub` occurs in `s` starting at index `i`. */
  predicate OccursAt(s: string, sub: string, i: int) {
    0 <= i && i + |sub| <= |s| && s[i..i + |sub|] == sub
  }

  /** `s.find(sub, start)`: the first index at or after `start` where `sub` occurs, or -1. */
  function FindFrom(s: string, sub: string, start: nat): (r: int)
    decreases |s| - start
    ensures r == -1 || (start <= r && OccursAt(s, sub, r))
    ensures r == -1 ==> forall i :: start <= i ==> !OccursAt(s, sub, i)
    ensures r != -1 ==> forall i :: start <= i < r ==> !OccursAt(s, sub, i)
  {
    if start + |sub| > |s| then -1
    else if OccursAt(s, sub, start) then start
    else FindFrom(s, sub, start + 1)
  }

  /** The first occurrence at or after `start` is the one `find` reports. */
  lemma FindFromFirst(s: string, sub: string, start: nat, p: nat)
    requires start <= p && OccursAt(s, sub, p)
    requires forall i :: start <= i < p ==> !OccursAt(s, sub, i)
    ensures FindFrom(s, sub, start) == p
  {
  }

  /** An occurrence inside the slice `s[a..b]` is an occurrence in `s`, shifted by `a`. */
  lemma OccursInSlice(s: string, sub: string, a: nat, b: nat, j: int)
    requires a <= b <= |s| && OccursAt(s[a..b], sub, j)
    ensures OccursAt(s, sub, a + j)
  {
    var u, v := s[a..b][j..j + |sub|], s[a + j..a + j + |sub|];
    assert forall k :: 0 <= k < |sub| ==> u[k] == v[k];
  }

  /** Searching from the end of `pre`, past a stretch `a` lacking the first character of
      `sub`, finds the `sub` that follows it. */
  lemma FindPast(pre: string, a: string, sub: string, b: string)
    requires sub != [] && sub[0] !in a
    ensures FindFrom(pre + a + sub + b, sub, |pre|) == |pre| + |a|
  {
    var s := pre + a + sub + b;
    var p := |pre| + |a|;
    assert s[p..p + |sub|] == sub;
    forall i | |pre| <= i < p ensures !OccursAt(s, sub, i) {
      assert s[i] == a[i - |pre|];
      if i + |sub| <= |s| {
        assert s[i..i + |sub|][0] == s[i];
      }
    }
    FindFromFirst(s, sub, |pre|, p);
  }

  /** Stripping cannot make a text contain what it did not. */
  lemma StripKeepsAbsence(s: string, sub: string)
    requires !Contains(s, sub)
    ensures !Contains(Strip(s), sub)
  {
    var i := StripOffset(s);
    var r := Strip(s);
    forall j | 0 <= j ensures !OccursAt(r, sub, j) {
      if OccursAt(r, sub, j) {
        OccursInSlice(s, sub, i, i + |r|, j);
      }
    }
    ContainsIff(r, sub);
    ContainsIff(s, sub);
  }

  /** Python's `sub in s`. */
  predicate Contains(s: string, sub: string) {
    FindFrom(s, sub, 0) != -1
  }

  lemma ContainsIff(s: string, sub: string)
    ensures Contains(s, sub) <==> exists i :: OccursAt(s, sub, i)
  {
    if exists i :: OccursAt(s, sub, i) {
      var i :| OccursAt(s, sub, i);
      assert 0 <= i;
    }
  }

  /** A text contains every infix of itself. */
  lemma ContainsInfix(a: string, b: string, c: string)
    ensures Contains(a + b + c, b)
  {
    var s := a + b + c;
    assert s[|a|..|a| + |b|] == b;
    assert OccursAt(s, b, |a|);
    ContainsIff(s, b);
  }

  /** A text lacking one of the characters of `sub` does not contain `sub`. */
  lemma MissingCharNotContained(s: string, sub: string, c: char)
    requires c in sub && c !in s
    ensures !Contains(s, sub)
  {
    var k :| 0 <= k < |sub| && sub[k] == c;
    forall i | 0 <= i ensures !OccursAt(s, sub, i) {
      if i + |sub| <= |s| {
        assert s[i..i + |sub|][k] == s[i + k];
      }
    }
    ContainsIff(s, sub);
  }

  /** Python's `any(k in s for k in keywords)`. */
  predicate MentionsAny(s: string, keywords: seq<string>) {
    exists k :: 0 <= k < |keywords| && Contains(s, keywords[k])
  }

  /** `s.rfind(sub)` for a one-character `sub`: the last index holding `c`, or -1. */
  function LastIndexOf(s: string, c: char): (r: int)
    ensures -1 <= r < |s|
    ensures r != -1 ==> s[r] == c
    ensures forall i :: r < i < |s| ==> s[i] != c
  {
    if s == [] then -1
    else if s[|s| - 1] == c then |s| - 1
    else LastIndexOf(s[..|s| - 1], c)
  }

  /** Python's `s[start:end]`: an empty text when the bounds cross. */
  function Slice(s: string, start: nat, end: nat): (r: string)
    requires end <= |s|
    ensures start <= end ==> r == s[start..end]
    ensures end < start ==> r == []
  {
    if start <= end then s[start..end] else []
  }

  /** The first index at or after `k` that does not hold whitespace, or `|s|`. */
  function SpacesFrom(s: string, k: nat): (n: nat)
    requires k <= |s|
    decreases |s| - k
    ensures k <= n <= |s|
    ensures forall i :: k <= i < n ==> IsSpace(s[i])
    ensures n == |s| || !IsSpace(s[n])
  {
    if k < |s| && IsSpace(s[k]) then SpacesFrom(s, k + 1) else k
  }

  /** The index just past the last non-whitespace character at or after `lo`, or `lo`. */
  function SpacesBefore(s: string, lo: nat, e: nat): (n: nat)
    requires lo <= e <= |s|
    decreases e - lo
    ensures lo <= n <= e
    ensures forall i :: n <= i < e ==> IsSpace(s[i])
    ensures n == lo || !IsSpace(s[n - 1])
  {
    if lo < e && IsSpace(s[e - 1]) then SpacesBefore(s, lo, e - 1) else e
  }

  /** Where `s.strip()` starts in `s`. */
  function StripOffset(s: string): (i: nat)
    ensures i <= |s|
  {
    SpacesFrom(s, 0)
  }

  /** Python's `s.strip()`: the infix of `s` between its leading and its trailing
      whitespace, which neither starts nor ends with whitespace. */
  function Strip(s: string): (r: string)
    ensures StripOffset(s) + |r| <= |s| && r == s[StripOffset(s)..StripOffset(s) + |r|]
    ensures forall k :: 0 <= k < StripOffset(s) ==> IsSpace(s[k])
    ensures forall k :: StripOffset(s) + |r| <= k < |s| ==> IsSpace(s[k])
    ensures r == [] || (!IsSpace(r[0]) && !IsSpace(r[|r| - 1]))
  {
    var i := StripOffset(s);
    var e := SpacesBefore(s, i, |s|);
    assert e > i ==> s[i..e][0] == s[i] && s[i..e][e - i - 1] == s[e - 1];
    s[i..e]
  }

  /** `c.lower()` for the Basic Latin and Latin-1 capitals, the only letters the model's texts use. */
  function LowerChar(c: char): char {
    if 'A' <= c <= 'Z' || ('\U{C0}' <= c <= '\U{DE}' && c != '\U{D7}') then (c as int + 32) as char else c
  }

  /** `c.upper()` for the Basic Latin and Latin-1 small letters that have a Latin-1 capital. */
  function UpperChar(c: char): char {
    if 'a' <= c <= 'z' || ('\U{E0}' <= c <= '\U{FE}' && c != '\U{F7}') then (c as int - 32) as char else c
  }

  /** Python's `s.lower()`, character by character. */
  function Lower(s: string): (r: string)
    ensures |r| == |s|
    ensures forall i :: 0 <= i < |s| ==> r[i] == LowerChar(s[i])
  {
    seq(|s|, i requires 0 <= i < |s| => LowerChar(s[i]))
  }

  /** Python's `s.capitalize()`: first character upper-cased, the rest lower-cased. */
  function Capitalize(s: string): (r: string)
    ensures |r| == |s|
    ensures s != [] ==> r[0] == UpperChar(s[0]) && r[1..] == Lower(s[1..])
  {
    if s == [] then [] else [UpperChar(s[0])] + Lower(s[1..])
  }

  /** Case mapping neither produces nor removes a character that is not a letter. */
  lemma {:induction false} CapitalizeKeepsAbsent(s: string, c: char)
    requires !('a' <= c <= 'z' || 'A' <= c <= 'Z' || '\U{C0}' <= c <= '\U{FE}')
    requires c !in s
    ensures c !in Capitalize(s)
  {
    if s != [] {
      var r := Capitalize(s);
      forall i | 0 <= i < |r| ensures r[i] != c {
        if i > 0 {
          assert r[i] == Lower(s[1..])[i - 1] == LowerChar(s[i]);
        }
      }
    }
  }

  /** Python's `s.replace(old, new)` for a one-character `old`. */
  function ReplaceChar(s: string, from: char, to: string): (r: string)
    ensures from !in to ==> from !in r
    ensures forall c :: c in s && c != from ==> c in r
    ensures from !in s ==> r == s
  {
    if s == [] then []
    else (if s[0] == from then to else [s[0]]) + ReplaceChar(s[1..], from, to)
  }

  /** The decimal digits of `n`, as `str(n)` prints them. */
  function NatToString(n: nat): (r: string)
    ensures r != []
    ensures forall i :: 0 <= i < |r| ==> '0' <= r[i] <= '9'
  {
    var d := ['0' + (n % 10) as char];
    if n < 10 then d else NatToString(n / 10) + d
  }

  /** `str(i)` for any integer. */
  function IntToString(i: int): (r: string)
    ensures r != []
  {
    if i < 0 then "-" + NatToString(-i) else NatToString(i)
  }

  /** `sep.join(parts)`. */
  function Join(parts: seq<string>, sep: string): string {
    if parts == [] then ""
    else if |parts| == 1 then parts[0]
    else parts[0] + sep + Join(parts[1..], sep)
  }
}
