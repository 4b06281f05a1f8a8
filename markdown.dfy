/**
  The response sanitizer `strip_markdown` of the interview-analysis service.

  It runs one regular-expression substitution, replacing every match of
  ```` ```json\s*|\s*``` ```` by the empty string, and then strips
  whitespace from both ends. Both alternatives of the pattern consume at
  least three characters, the pattern has no anchors and no look-behind,
  so whether a match starts at position `i` depends only on the suffix
  `s[i..]`. The substitution is therefore written over suffixes: at each
  position the first alternative is tried first (the literal fence and
  language tag, then the longest whitespace run), then the second (the
  longest whitespace run, then the fence; a shorter run cannot succeed
  because the next character would be whitespace, not a backtick); on a
  match the scan resumes after it, otherwise the character is kept.
*/
module Markdown {

  /** Whitespace as the service's regular expression (`\s`) and `str.strip()` both read it. */
  predicate IsSpace(c: char) {
    c == ' ' || ('\t' <= c <= '\r') || ('\U{1C}' <= c <= '\U{1F}') ||
    c == '\U{85}' || c == '\U{A0}' || c == '\U{1680}' ||
    ('\U{2000}' <= c <= '\U{200A}') || c == '\U{2028}' || c == '\U{2029}' ||
    c == '\U{202F}' || c == '\U{205F}' || c == '\U{3000}'
  }

  predicate AllSpace(s: string) {
    forall k | 0 <= k < |s| :: IsSpace(s[k])
  }

  /** No whitespace at either end. */
  predicate Trimmed(s: string) {
    s == [] || (!IsSpace(s[0]) && !IsSpace(s[|s| - 1]))
  }

  /** The closing fence, and the opening fence with its language tag. */
  const Fence: string := "```"
  const JsonFence: string := "```json"

  /** A closing fence (three backticks) starts at position `p` of `s`. */
  predicate FenceAt(s: string, p: nat) {
    p + 3 <= |s| && s[p] == '`' && s[p + 1] == '`' && s[p + 2] == '`'
  }

  /** `s` starts with the opening fence: three backticks and the tag `json`. */
  predicate OpensJsonFence(s: string) {
    FenceAt(s, 0) && 7 <= |s| && s[3] == 'j' && s[4] == 's' && s[5] == 'o' && s[6] == 'n'
  }

  predicate FenceFree(s: string) {
    forall p: nat | p < |s| :: !FenceAt(s, p)
  }

  /** The end of the longest whitespace run that starts at `i` (what a greedy `\s*` consumes). */
  function SpaceEnd(s: string, i: nat): (j: nat)
    requires i <= |s|
    ensures i <= j <= |s|
    ensures forall k | i <= k < j :: IsSpace(s[k])
    ensures j < |s| ==> !IsSpace(s[j])
    decreases |s| - i
  {
    if i < |s| && IsSpace(s[i]) then SpaceEnd(s, i + 1) else i
  }

  /**
    The length of the match that starts at the beginning of `s`, or 0 when
    none does. The first alternative is tried first; both alternatives are
    at least as long as a fence.
  */
  function MatchAt(s: string): (m: nat)
    ensures m <= |s|
    ensures m == 0 || m >= |Fence|
    ensures m > 0 <==> OpensJsonFence(s) || FenceAt(s, SpaceEnd(s, 0))
  {
    if OpensJsonFence(s) then SpaceEnd(s, |JsonFence|)
    else if FenceAt(s, SpaceEnd(s, 0)) then SpaceEnd(s, 0) + |Fence|
    else 0
  }

  /**
    `re.sub(r'```json\s*|\s*```', '', s)`: the leftmost match wins, matches
    do not overlap, and unmatched characters are copied.
  */
  function Substitute(s: string): (r: string)
    ensures |r| <= |s|
    decreases |s|
  {
    if s == [] then []
    else if MatchAt(s) > 0 then Substitute(s[MatchAt(s)..])
    else [s[0]] + Substitute(s[1..])
  }

  /** Drops leading whitespace; what it keeps is a suffix that does not start with whitespace. */
  function TrimStart(s: string): (r: string)
    ensures |r| <= |s| && r == s[|s| - |r|..]
    ensures r == [] || !IsSpace(r[0])
  {
    if s != [] && IsSpace(s[0]) then TrimStart(s[1..]) else s
  }

  /** Drops trailing whitespace; what it keeps is a prefix that does not end with whitespace. */
  function TrimEnd(s: string): (r: string)
    ensures |r| <= |s| && r == s[..|r|]
    ensures r == [] || !IsSpace(r[|r| - 1])
  {
    if s != [] && IsSpace(s[|s| - 1]) then
      var r := TrimEnd(s[..|s| - 1]);
      assert s[..|s| - 1][..|r|] == s[..|r|];
      r
    else s
  }

  /** How many leading characters `str.strip()` removes. */
  function StripOffset(s: string): nat {
    |s| - |TrimStart(s)|
  }

  /** Trimmed text has nothing for either trim to drop. */
  lemma TrimsKeepTrimmed(s: string)
    ensures Trimmed(s) ==> TrimStart(s) == s && TrimEnd(s) == s
  {
  }

  /** `str.strip()` with no argument: the trimmed slice of `s` that starts after its leading whitespace. */
  function Strip(s: string): (r: string)
    ensures Trimmed(r)
    ensures StripOffset(s) + |r| <= |s| && r == s[StripOffset(s)..StripOffset(s) + |r|]
    ensures Trimmed(s) ==> r == s
  {
    var t := TrimStart(s);
    var r := TrimEnd(t);
    TrimsKeepTrimmed(s);
    assert s[|s| - |t|..][..|r|] == s[|s| - |t|..|s| - |t| + |r|];
    r
  }

  /** What `TrimStart` drops is whitespace. */
  lemma {:induction false} TrimStartDropsSpace(s: string)
    ensures forall k | 0 <= k < |s| - |TrimStart(s)| :: IsSpace(s[k])
  {
    if s != [] && IsSpace(s[0]) {
      TrimStartDropsSpace(s[1..]);
      forall k | 0 < k < |s| - |TrimStart(s)|
        ensures IsSpace(s[k])
      {
        assert s[k] == s[1..][k - 1];
      }
    }
  }

  /** What `TrimEnd` drops is whitespace. */
  lemma {:induction false} TrimEndDropsSpace(s: string)
    ensures forall k | |TrimEnd(s)| <= k < |s| :: IsSpace(s[k])
  {
    if s != [] && IsSpace(s[|s| - 1]) {
      var u := s[..|s| - 1];
      TrimEndDropsSpace(u);
      forall k | |TrimEnd(s)| <= k < |s| - 1
        ensures IsSpace(s[k])
      {
        assert s[k] == u[k];
      }
    }
  }

  /** `str.strip()` removes whitespace only, and only from the two ends. */
  lemma StripDropsOnlySpace(s: string)
    ensures forall k | 0 <= k < StripOffset(s) :: IsSpace(s[k])
    ensures forall k | StripOffset(s) + |Strip(s)| <= k < |s| :: IsSpace(s[k])
  {
    var t := TrimStart(s);
    TrimStartDropsSpace(s);
    TrimEndDropsSpace(t);
    forall k | StripOffset(s) + |Strip(s)| <= k < |s|
      ensures IsSpace(s[k])
    {
      assert s[k] == t[k - StripOffset(s)];
    }
  }

  /** `strip_markdown(response_text)`. */
  function StripMarkdown(s: string): (r: string)
    ensures Trimmed(r)
    ensures |r| <= |s|
  {
    Strip(Substitute(s))
  }

  // ---------------------------------------------------------------------
  // Fence-free text passes the substitution untouched
  // ---------------------------------------------------------------------

  /** A whitespace run from `i` to `m` that cannot be extended ends exactly at `m`. */
  lemma {:induction false} SpaceEndAt(s: string, i: nat, m: nat)
    requires i <= m <= |s|
    requires forall k | i <= k < m :: IsSpace(s[k])
    requires m == |s| || !IsSpace(s[m])
    ensures SpaceEnd(s, i) == m
    decreases m - i
  {
    if i < m {
      SpaceEndAt(s, i + 1, m);
    }
  }

  /**
    Backtracking cannot help the second alternative: a whitespace run that
    is followed by a fence is the longest one, so a greedy `\s*` finds it.
  */
  lemma ShorterRunNeverReachesFence(s: string, k: nat)
    requires k <= |s| && AllSpace(s[..k]) && FenceAt(s, k)
    ensures k == SpaceEnd(s, 0)
  {
    forall i | 0 <= i < k
      ensures IsSpace(s[i])
    {
      assert s[i] == s[..k][i];
    }
    SpaceEndAt(s, 0, k);
  }

  /** Where no match starts, the first character is copied and the scan moves one step. */
  lemma KeepFirst(t: string)
    requires t != [] && !FenceAt(t, 0) && !FenceAt(t, SpaceEnd(t, 0))
    ensures Substitute(t) == [t[0]] + Substitute(t[1..])
  {
  }

  /** One step of `SubstituteKeepsPrefix`: a copied first character joins the copied prefix. */
  lemma CopyFirstThenPrefix(t: string, n: nat)
    requires 0 < n <= |t|
    requires !FenceAt(t, 0) && !FenceAt(t, SpaceEnd(t, 0))
    requires Substitute(t[1..]) == t[1..][..n - 1] + Substitute(t[1..][n - 1..])
    ensures Substitute(t) == t[..n] + Substitute(t[n..])
  {
    var u := t[1..];
    KeepFirst(t);
    assert t[..n] == [t[0]] + u[..n - 1];
    assert t[n..] == u[n - 1..];
    ConcatAssociative([t[0]], u[..n - 1], Substitute(u[n - 1..]));
  }

  /** Regrouping a concatenation, kept as its own step to keep the proof above cheap. */
  lemma ConcatAssociative(a: string, b: string, c: string)
    ensures a + (b + c) == (a + b) + c
  {
  }

  /** Where no fence starts before a cut that ends a non-space character, no match starts at 0. */
  lemma NoMatchBeforeCut(t: string, n: nat)
    requires 0 < n <= |t|
    requires forall p: nat | p < n :: !FenceAt(t, p)
    requires n == |t| || !IsSpace(t[n - 1])
    ensures !FenceAt(t, 0) && !FenceAt(t, SpaceEnd(t, 0))
  {
    var j := SpaceEnd(t, 0);
    if j < n {
      assert !FenceAt(t, j);
    } else {
      assert j == |t|;
    }
  }

  /** Dropping the first character keeps the fence-free prefix, one shorter. */
  lemma NoFenceInTail(t: string, n: nat)
    requires 0 < n <= |t|
    requires forall p: nat | p < n :: !FenceAt(t, p)
    requires n == |t| || !IsSpace(t[n - 1])
    ensures forall p: nat | p < n - 1 :: !FenceAt(t[1..], p)
    ensures n - 1 == 0 || n - 1 == |t[1..]| || !IsSpace(t[1..][n - 2])
  {
    var u := t[1..];
    forall p: nat | p < n - 1
      ensures !FenceAt(u, p)
    {
      assert !FenceAt(t, p + 1);
    }
  }

  /**
    If no closing fence starts in the first `n` characters, and the cut at
    `n` does not fall inside a whitespace run that could reach a fence, the
    substitution copies those `n` characters and carries on from `n`.
  */
  lemma {:induction false} SubstituteKeepsPrefix(t: string, n: nat)
    requires n <= |t|
    requires forall p: nat | p < n :: !FenceAt(t, p)
    requires n == 0 || n == |t| || !IsSpace(t[n - 1])
    ensures Substitute(t) == t[..n] + Substitute(t[n..])
    decreases n
  {
    if n == 0 {
      assert t[..0] == [] && t[0..] == t;
    } else {
      NoMatchBeforeCut(t, n);
      NoFenceInTail(t, n);
      SubstituteKeepsPrefix(t[1..], n - 1);
      CopyFirstThenPrefix(t, n);
    }
  }

  /** The substitution leaves text without a closing fence unchanged. */
  lemma FenceFreeUnchanged(s: string)
    requires FenceFree(s)
    ensures Substitute(s) == s
  {
    SubstituteKeepsPrefix(s, |s|);
    assert s[..|s|] == s && s[|s|..] == [];
  }

  /**
   * Whitespace followed by a closing fence is one match of the second
   * alternative, and the scan resumes right after the fence. Without the
   * whitespace the text must not open with ```json, which the first
   * alternative would take instead.
   */
  lemma ClosingFenceVanishes(w: string, rest: string)
    requires AllSpace(w) && (w != [] || !OpensJsonFence(Fence + rest))
    ensures Substitute(w + Fence + rest) == Substitute(rest)
  {
    var t := w + Fence + rest;
    SpaceEndAt(t, 0, |w|);
    assert FenceAt(t, |w|);
    assert w != [] ==> IsSpace(t[0]) && !OpensJsonFence(t);
    assert w == [] ==> t == Fence + rest;
    assert MatchAt(t) == |w| + |Fence|;
    assert t[|w| + |Fence|..] == rest;
  }

  /** Text with no closing fence is only trimmed. */
  lemma FenceFreeOnlyTrimmed(s: string)
    requires FenceFree(s)
    ensures StripMarkdown(s) == Strip(s)
    ensures Trimmed(s) ==> StripMarkdown(s) == s
  {
    FenceFreeUnchanged(s);
  }

  /** A slice of fence-free text is fence-free. */
  lemma FenceFreeSlice(s: string, i: nat, r: string)
    requires FenceFree(s) && i + |r| <= |s| && r == s[i..i + |r|]
    ensures FenceFree(r)
  {
    forall p: nat | p < |r|
      ensures !FenceAt(r, p)
    {
      assert !FenceAt(s, i + p);
    }
  }

  /** On text with no closing fence, a second application changes nothing. */
  lemma FenceFreeStable(s: string)
    requires FenceFree(s)
    ensures StripMarkdown(StripMarkdown(s)) == StripMarkdown(s)
  {
    FenceFreeOnlyTrimmed(s);
    FenceFreeSlice(s, StripOffset(s), Strip(s));
    FenceFreeOnlyTrimmed(Strip(s));
  }

  /** In `body + rest`, no closing fence starts inside a fence-free body whose last character is not a backtick. */
  lemma NoFenceInBody(body: string, rest: string)
    requires FenceFree(body)
    requires body == [] || body[|body| - 1] != '`'
    ensures forall p: nat | p < |body| :: !FenceAt(body + rest, p)
  {
    var t := body + rest;
    forall p: nat | p < |body|
      ensures !FenceAt(t, p)
    {
      assert !FenceAt(body, p);
    }
  }

  /** The opening fence with the whitespace after it is one match of the first alternative. */
  lemma OpeningFenceVanishes(w: string, rest: string)
    requires AllSpace(w)
    requires rest == [] || !IsSpace(rest[0])
    ensures Substitute(JsonFence + w + rest) == Substitute(rest)
  {
    var s := JsonFence + w + rest;
    assert OpensJsonFence(s);
    SpaceEndAt(s, |JsonFence|, |JsonFence| + |w|);
    assert s[|JsonFence| + |w|..] == rest;
  }

  /** A body that cannot reach into the closing fence is copied, and the closing fence with the whitespace before it goes. */
  lemma BodyBeforeClosingFence(body: string, w: string)
    requires AllSpace(w) && FenceFree(body) && body != []
    requires !IsSpace(body[|body| - 1]) && body[|body| - 1] != '`'
    ensures Substitute(body + w + Fence) == body
  {
    var t := body + w + Fence;
    NoFenceInBody(body, w + Fence);
    assert t == body + (w + Fence);
    SubstituteKeepsPrefix(t, |body|);
    assert t[..|body|] == body;
    assert t[|body|..] == w + Fence + [];
    ClosingFenceVanishes(w, []);
  }

  /**
    A fenced JSON reply comes back as exactly its body: the opening fence
    with its tag and the whitespace after it are one match, the body is
    copied, and the whitespace before the closing fence with the fence is
    another match. The body must be trimmed, hold no closing fence, and
    not end with a backtick (see `WrappedBodyEndingInBacktick`).
  */
  lemma FencedBodyRoundTrip(w1: string, body: string, w2: string)
    requires AllSpace(w1) && AllSpace(w2)
    requires Trimmed(body) && FenceFree(body)
    requires body == [] || body[|body| - 1] != '`'
    ensures StripMarkdown(JsonFence + w1 + body + w2 + Fence) == body
  {
    var s := JsonFence + w1 + body + w2 + Fence;
    if body == [] {
      assert s == JsonFence + (w1 + w2) + Fence;
      OpeningFenceVanishes(w1 + w2, Fence);
      ClosingFenceVanishes([], []);
      assert [] + Fence + [] == Fence;
    } else {
      assert s == JsonFence + w1 + (body + w2 + Fence);
      OpeningFenceVanishes(w1, body + w2 + Fence);
      BodyBeforeClosingFence(body, w2);
    }
    assert Substitute(s) == body;
  }

  /** One or two backticks are too short for either alternative. */
  lemma ShortBacktickRunsKept()
    ensures Substitute("`") == "`"
    ensures Substitute("``") == "``"
  {
    SpaceEndAt("`", 0, 0);
    KeepFirst("`");
    assert "`"[1..] == [];
    SpaceEndAt("``", 0, 0);
    KeepFirst("``");
    assert "``"[1..] == "`";
  }

  /** The substitution on what follows the opening fence in `WrappedBodyEndingInBacktick`. */
  lemma BacktickThenClosingFence()
    ensures Substitute("a ````") == "a`"
  {
    var t := "a ````";
    assert t[1..] == " " + Fence + "`";
    ClosingFenceVanishes(" ", "`");
    ShortBacktickRunsKept();
    SpaceEndAt(t, 0, 0);
    KeepFirst(t);
  }

  /** The body of `WrappedBodyEndingInBacktick` meets every other condition of `FencedBodyRoundTrip`. */
  lemma BacktickBodyIsClean()
    ensures Trimmed("a `") && FenceFree("a `")
  {
    assert !FenceAt("a `", 0);
  }

  /**
    The body's last character matters: a space and a backtick that end the
    body run into the closing fence, and the second alternative then
    removes the space with the fence, leaving the body's backtick behind.
  */
  lemma WrappedBodyEndingInBacktick()
    ensures Trimmed("a `") && FenceFree("a `")
    ensures StripMarkdown(JsonFence + "a `" + Fence) == "a`"
  {
    BacktickBodyIsClean();
    assert JsonFence + "a `" + Fence == JsonFence + [] + "a ````";
    OpeningFenceVanishes([], "a ````");
    BacktickThenClosingFence();
    TrimsKeepTrimmed("a`");
  }

  /**
    Not idempotent in general: one application can leave behind a fence
    that the next application removes.
  */
  lemma NotIdempotent()
    ensures StripMarkdown("` `````") == "```"
    ensures StripMarkdown("```") == ""
  {
    BacktickBeforeSpaceFence();
    ClosingFenceVanishes([], []);
    assert [] + Fence + [] == "```";
  }

  /** The substitution in `NotIdempotent`: the space and the first fence go, five backticks become three. */
  lemma BacktickBeforeSpaceFence()
    ensures Substitute("` `````") == "```"
  {
    var r := " " + Fence + "``";
    ClosingFenceVanishes(" ", "``");
    ShortBacktickRunsKept();
    var s := "`" + r;
    assert s == "` `````";
    SpaceEndAt(s, 0, 0);
    KeepFirst(s);
    assert s[1..] == r;
  }

  // ---------------------------------------------------------------------
  // Only deletions: the result is a subsequence of the input
  // ---------------------------------------------------------------------

  /** `a` can be obtained from `b` by deleting characters. */
  predicate Subsequence(a: string, b: string)
    decreases |b|
  {
    if a == [] then true
    else if b == [] then false
    else (a[0] == b[0] && Subsequence(a[1..], b[1..])) || Subsequence(a, b[1..])
  }

  lemma {:induction false} SubsequenceTransitive(a: string, b: string, c: string)
    requires Subsequence(a, b) && Subsequence(b, c)
    ensures Subsequence(a, c)
    decreases |c|
  {
    if a != [] {
      if b[0] == c[0] && Subsequence(b[1..], c[1..]) {
        if a[0] == b[0] && Subsequence(a[1..], b[1..]) {
          SubsequenceTransitive(a[1..], b[1..], c[1..]);
        } else {
          SubsequenceTransitive(a, b[1..], c[1..]);
        }
      } else {
        SubsequenceTransitive(a, b, c[1..]);
      }
    }
  }

  lemma {:induction false} SubsequenceOfSuffix(a: string, b: string, k: nat)
    requires k <= |b| && Subsequence(a, b[k..])
    ensures Subsequence(a, b)
    decreases k
  {
    if k > 0 {
      assert b[1..][k - 1..] == b[k..];
      SubsequenceOfSuffix(a, b[1..], k - 1);
    }
  }

  lemma {:induction false} PrefixIsSubsequence(b: string, n: nat)
    requires n <= |b|
    ensures Subsequence(b[..n], b)
    decreases n
  {
    if n > 0 {
      PrefixIsSubsequence(b[1..], n - 1);
      assert b[..n][1..] == b[1..][..n - 1];
    }
  }

  lemma SliceIsSubsequence(b: string, i: nat, j: nat)
    requires i <= j <= |b|
    ensures Subsequence(b[i..j], b)
  {
    PrefixIsSubsequence(b[i..], j - i);
    assert b[i..][..j - i] == b[i..j];
    SubsequenceOfSuffix(b[i..j], b, i);
  }

  lemma {:induction false} SubstituteOnlyDeletes(s: string)
    ensures Subsequence(Substitute(s), s)
    decreases |s|
  {
    if s == [] {
    } else if MatchAt(s) > 0 {
      var m := MatchAt(s);
      SubstituteOnlyDeletes(s[m..]);
      SubsequenceOfSuffix(Substitute(s[m..]), s, m);
    } else {
      SubstituteOnlyDeletes(s[1..]);
      var r := [s[0]] + Substitute(s[1..]);
      assert r[0] == s[0] && r[1..] == Substitute(s[1..]);
    }
  }

  /** `strip_markdown` only deletes characters, so it never lengthens its input. */
  lemma StripMarkdownOnlyDeletes(s: string)
    ensures Subsequence(StripMarkdown(s), s)
  {
    var m := Substitute(s);
    SubstituteOnlyDeletes(s);
    var r := Strip(m);
    var i := StripOffset(m);
    SliceIsSubsequence(m, i, i + |r|);
    SubsequenceTransitive(r, m, s);
  }
}
