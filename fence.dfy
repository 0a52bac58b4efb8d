/**
 * The Python string operations the quiz generator applies to a model reply
 * (`str.strip`, `in`, `str.split`), and the payload extraction built from them:
 * strip the reply, then take the part inside a ```json fence, else inside a bare
 * ``` fence, else the whole stripped text.
 */
module Fence {
  import opened Wrappers

  const JsonFence: string := "```json"
  const BareFence: string := "```"

  // ----- str.strip() -------------------------------------------------------

  /** The characters for which Python's `str.isspace()` holds; `strip()` removes these. */
  predicate IsSpace(c: char) {
    var n := c as int;
    (9 <= n <= 13) || (28 <= n <= 32) || n == 0x85 || n == 0xA0 || n == 0x1680
    || (0x2000 <= n <= 0x200A) || n == 0x2028 || n == 0x2029 || n == 0x202F
    || n == 0x205F || n == 0x3000
  }

  predicate AllSpace(s: string) {
    forall k :: 0 <= k < |s| ==> IsSpace(s[k])
  }

  /** `r` is `s` with some whitespace removed at each end. */
  ghost predicate TrimmedFrom(s: string, r: string) {
    exists i :: 0 <= i <= |s| - |r| && s[i..i + |r|] == r && AllSpace(s[..i]) && AllSpace(s[i + |r|..])
  }

  function TrimStart(s: string): (r: string)
    ensures |r| <= |s| && r == s[|s| - |r|..]
    ensures AllSpace(s[..|s| - |r|])
    ensures r != [] ==> !IsSpace(r[0])
  {
    if s != [] && IsSpace(s[0]) then
      var r := TrimStart(s[1..]);
      assert s[..|s| - |r|] == [s[0]] + s[1..][..|s| - 1 - |r|];
      r
    else
      s
  }

  function TrimEnd(s: string): (r: string)
    ensures |r| <= |s| && r == s[..|r|]
    ensures AllSpace(s[|r|..])
    ensures r != [] ==> !IsSpace(r[|r| - 1])
  {
    if s != [] && IsSpace(s[|s| - 1]) then
      var r := TrimEnd(s[..|s| - 1]);
      assert s[|r|..] == s[..|s| - 1][|r|..] + [s[|s| - 1]];
      r
    else
      s
  }

  /** Python's `s.strip()`: all leading and trailing whitespace removed, nothing else. */
  function Strip(s: string): (r: string)
    ensures TrimmedFrom(s, r)
    ensures r != [] ==> !IsSpace(r[0]) && !IsSpace(r[|r| - 1])
  {
    var a := TrimStart(s);
    var r := TrimEnd(a);
    StripWitness(s, a, r);
    r
  }

  lemma StripWitness(s: string, a: string, r: string)
    requires |a| <= |s| && a == s[|s| - |a|..] && AllSpace(s[..|s| - |a|])
    requires |r| <= |a| && r == a[..|r|] && AllSpace(a[|r|..])
    ensures TrimmedFrom(s, r)
  {
    var i := |s| - |a|;
    assert s[i..i + |r|] == r;
    assert s[i + |r|..] == a[|r|..];
  }

  // ----- find / in ----------------------------------------------------------

  /** `pat` occurs in `s` starting at index `i`. */
  predicate OccursAt(s: string, pat: string, i: int) {
    0 <= i && i + |pat| <= |s| && s[i..i + |pat|] == pat
  }

  /** The leftmost occurrence of `pat` in `s` at or after `k` (Python's `s.find(pat, k)`). */
  function IndexFrom(s: string, pat: string, k: nat): (r: Option<nat>)
    decreases |s| - k
    ensures r.Some? ==> k <= r.value && OccursAt(s, pat, r.value)
    ensures r.Some? ==> forall j :: k <= j < r.value ==> !OccursAt(s, pat, j)
    ensures r.None? ==> forall j :: k <= j ==> !OccursAt(s, pat, j)
  {
    if k + |pat| > |s| then None
    else if s[k..k + |pat|] == pat then Some(k)
    else IndexFrom(s, pat, k + 1)
  }

  function IndexOf(s: string, pat: string): (r: Option<nat>)
    ensures r.Some? ==> OccursAt(s, pat, r.value) && forall j :: 0 <= j < r.value ==> !OccursAt(s, pat, j)
    ensures r.None? ==> forall j :: !OccursAt(s, pat, j)
  {
    IndexFrom(s, pat, 0)
  }

  /** Python's `pat in s`. */
  predicate Contains(s: string, pat: string) {
    IndexOf(s, pat).Some?
  }

  lemma ContainsAt(s: string, pat: string, i: int)
    requires OccursAt(s, pat, i)
    ensures Contains(s, pat)
  {
  }

  /** An occurrence inside a prefix is an occurrence in the whole text. */
  lemma OccursInPrefix(p: string, s: string, pat: string, k: int)
    requires |p| <= |s| && p == s[..|p|] && OccursAt(p, pat, k)
    ensures OccursAt(s, pat, k)
  {
    assert s[k..k + |pat|] == p[k..k + |pat|];
  }

  /** Every ```json fence begins with a bare ``` fence. */
  lemma JsonFenceIsBareFence(s: string, k: int)
    requires OccursAt(s, JsonFence, k)
    ensures OccursAt(s, BareFence, k)
  {
    assert s[k..k + 3] == s[k..k + 7][..3];
  }

  /** The part of `s` before the first `pat`, or all of `s` when there is none. */
  function Before(s: string, pat: string): (r: string)
    ensures |r| <= |s| && r == s[..|r|]
    ensures r == s || OccursAt(s, pat, |r|)
  {
    match IndexOf(s, pat)
    case None => s
    case Some(i) => s[..i]
  }

  // ----- str.split(sep) / sep.join(parts) -----------------------------------

  /** Python's `s.split(sep)` for a non-empty separator (Python rejects an empty one). */
  function Split(s: string, sep: string): (parts: seq<string>)
    requires |sep| > 0
    decreases |s|
    ensures |parts| >= 1
    ensures Contains(s, sep) ==> |parts| >= 2
    ensures forall k :: 0 <= k < |parts| ==> !Contains(parts[k], sep)
  {
    match IndexOf(s, sep)
    case None => [s]
    case Some(i) =>
      var rest := Split(s[i + |sep|..], sep);
      assert !Contains(s[..i], sep) by {
        if Contains(s[..i], sep) {
          OccursInPrefix(s[..i], s, sep, IndexOf(s[..i], sep).value);
        }
      }
      [s[..i]] + rest
  }

  function Join(parts: seq<string>, sep: string): string
  {
    if |parts| == 0 then ""
    else if |parts| == 1 then parts[0]
    else parts[0] + sep + Join(parts[1..], sep)
  }

  /** `sep.join(s.split(sep)) == s`: splitting loses nothing but the separators. */
  lemma {:induction false} JoinSplit(s: string, sep: string)
    requires |sep| > 0
    ensures Join(Split(s, sep), sep) == s
    decreases |s|
  {
    match IndexOf(s, sep)
    case None =>
    case Some(i) =>
      var rest := s[i + |sep|..];
      JoinSplit(rest, sep);
      assert Split(s, sep) == [s[..i]] + Split(rest, sep);
      assert s == s[..i] + sep + rest;
  }

  /** The first piece of a split is the text before the first separator. */
  lemma SplitFirst(s: string, sep: string)
    requires |sep| > 0
    ensures Split(s, sep)[0] == Before(s, sep)
  {
  }

  /** The second piece of a split is the text after the first separator, up to the next one. */
  lemma SplitSecond(s: string, sep: string, i: nat)
    requires |sep| > 0 && IndexOf(s, sep) == Some(i)
    ensures |Split(s, sep)| >= 2 && Split(s, sep)[1] == Before(s[i + |sep|..], sep)
  {
    var rest := s[i + |sep|..];
    assert Split(s, sep) == [s[..i]] + Split(rest, sep);
    SplitFirst(rest, sep);
  }

  // ----- the payload handed to json.loads -----------------------------------

  /**
   * The text the quiz generator parses as JSON: the stripped reply, cut by
   * `split("```json")[1].split("```")[0]` when it holds a ```json fence, else by
   * `split("```")[1].split("```")[0]` when it holds a bare fence.
   */
  function ExtractPayload(reply: string): (r: string)
    ensures !Contains(Strip(reply), BareFence) ==> r == Strip(reply)
    ensures !Contains(r, BareFence)
    ensures Contains(Strip(reply), r)
  {
    Unfence(Strip(reply))
  }

  /** The fence cutting applied to an already stripped text `t`. */
  function Unfence(t: string): (r: string)
    ensures !Contains(t, BareFence) ==> r == t
    ensures !Contains(r, BareFence)
    ensures Contains(t, r)
  {
    if Contains(t, JsonFence) then
      JsonPayload(t, IndexOf(t, JsonFence).value);
      Split(Split(t, JsonFence)[1], BareFence)[0]
    else if Contains(t, BareFence) then
      BarePayload(t, IndexOf(t, BareFence).value);
      Split(Split(t, BareFence)[1], BareFence)[0]
    else
      ContainsAt(t, t, 0);
      t
  }

  /**
   * With a bare fence (and no ```json fence) the payload is exactly the text after
   * the first ``` up to the next ```, or to the end when there is no second fence.
   */
  lemma BarePayload(t: string, i: nat)
    requires IndexOf(t, BareFence) == Some(i)
    ensures Split(Split(t, BareFence)[1], BareFence)[0] == Before(t[i + 3..], BareFence)
    ensures Contains(t, Before(t[i + 3..], BareFence))
  {
    var rest := t[i + 3..];
    SplitSecond(t, BareFence, i);
    var p := Before(rest, BareFence);
    assert !Contains(p, BareFence);
    SplitFirst(p, BareFence);
    assert p == rest[..|p|];
    assert t[i + 3..i + 3 + |p|] == p;
    ContainsAt(t, p, i + 3);
  }

  /**
   * With a ```json fence the payload starts right after the first ```json, holds no
   * ```, and ends at the end of the text or where a ``` begins. When no second
   * ```json follows, it ends at the next ```.
   */
  lemma JsonPayload(t: string, i: nat)
    requires IndexOf(t, JsonFence) == Some(i)
    ensures Contains(t, BareFence)
    ensures var rest := t[i + 7..];
            var r := Split(Split(t, JsonFence)[1], BareFence)[0];
            && |r| <= |rest| && r == rest[..|r|]
            && !Contains(r, BareFence)
            && (r == rest || OccursAt(rest, BareFence, |r|))
            && (!Contains(rest, JsonFence) ==> r == Before(rest, BareFence))
            && Contains(t, r)
  {
    JsonFenceIsBareFence(t, i);
    ContainsAt(t, BareFence, i);
    var rest := t[i + 7..];
    SplitSecond(t, JsonFence, i);
    var p := Before(rest, JsonFence);
    SplitFirst(p, BareFence);
    JsonSegment(rest);
    var r := Before(p, BareFence);
    assert t[i + 7..i + 7 + |r|] == r;
    ContainsAt(t, r, i + 7);
  }

  /** The double cut `Before(Before(rest, "```json"), "```")` on the text after the fence. */
  lemma JsonSegment(rest: string)
    ensures var r := Before(Before(rest, JsonFence), BareFence);
            && |r| <= |rest| && r == rest[..|r|]
            && (r == rest || OccursAt(rest, BareFence, |r|))
            && (!Contains(rest, JsonFence) ==> r == Before(rest, BareFence))
  {
    var p := Before(rest, JsonFence);
    var r := Before(p, BareFence);
    assert r == rest[..|r|];
    if r != p {
      OccursInPrefix(p, rest, BareFence, |r|);
    } else if p != rest {
      JsonFenceIsBareFence(rest, |p|);
    }
  }

  /**
   * The double split is not "up to the next ```" when a ``` straddles the start of
   * a second ```json: here the payload keeps a backtick.
   */
  lemma StraddlingFence()
    ensures Unfence("```jsona````json") == "a`"
  {
    var t := "```jsona````json";
    assert OccursAt(t, JsonFence, 0);
    var rest := t[7..];
    assert rest == "a````json";
    assert rest[0..7][0] != JsonFence[0];
    assert rest[1..8][3] != JsonFence[3];
    assert OccursAt(rest, JsonFence, 2);
    assert Before(rest, JsonFence) == "a`";
    assert !OccursAt("a`", BareFence, 0);
    SplitSecond(t, JsonFence, 0);
    SplitFirst("a`", BareFence);
  }
}
