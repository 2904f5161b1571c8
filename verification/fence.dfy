/**
 The fenced-code search of the question handler: Python's
 `re.search(r"```(?:python)?(.*?)```", output, re.DOTALL)` and its group 1.

 The regular expression is modelled by its backtracking order. A candidate
 match is an opening fence, the optional `python` tag taken (length 6) or
 skipped (length 0), and a closing fence. The engine tries start positions
 from left to right; at one start it tries the tag before skipping it
 (`?` is greedy) and then the closing fences from nearest to farthest
 (`*?` is lazy). `re.DOTALL` lets the body hold any character, newlines
 included. The first candidate in that order that fits is the match.
 */
module Fence {
  import opened Wrappers
  import opened Text

  /** The fence delimiter, three backticks. */
  const Backticks: string := "```"

  /** The optional language tag after the opening fence. */
  const Tag: string := "python"

  /** One candidate match: opening fence at `open`, tag length `tagLen`
      (0 or 6), closing fence at `close`. Group 1 is the text between the
      end of the tag and `close`. */
  datatype FenceMatch = FenceMatch(open: nat, tagLen: nat, close: nat)

  /** The pattern matches `s` with this choice of positions. */
  predicate Viable(s: string, m: FenceMatch) {
    && OccursAt(s, Backticks, m.open)
    && (m.tagLen == 0 || (m.tagLen == |Tag| && OccursAt(s, Tag, m.open + 3)))
    && m.open + 3 + m.tagLen <= m.close
    && OccursAt(s, Backticks, m.close)
  }

  /** `a` is tried before `b` by the backtracking engine. */
  predicate Earlier(a: FenceMatch, b: FenceMatch) {
    || a.open < b.open
    || (a.open == b.open && a.tagLen > b.tagLen)
    || (a.open == b.open && a.tagLen == b.tagLen && a.close < b.close)
  }

  /** `m` is the match `re.search` reports: it fits, and nothing tried
      before it does. */
  ghost predicate FirstMatch(s: string, m: FenceMatch) {
    Viable(s, m) && forall a :: Earlier(a, m) ==> !Viable(s, a)
  }

  /** The search as the handler performs it: the leftmost opening fence,
      the tag if present and followed by a closing fence, and the nearest
      closing fence after it. */
  function Search(s: string): (r: Option<FenceMatch>)
    ensures r.Some? ==> FirstMatch(s, r.value)
    ensures r.None? ==> forall m :: !Viable(s, m)
  {
    match FindFrom(s, Backticks, 0)
    case None => None
    case Some(p) =>
      var tagged := if OccursAt(s, Tag, p + 3) then FindFrom(s, Backticks, p + 3 + |Tag|) else None;
      if tagged.Some? then
        Some(FenceMatch(p, |Tag|, tagged.value))
      else
        match FindFrom(s, Backticks, p + 3)
        case None => None
        case Some(q) => Some(FenceMatch(p, 0, q))
  }

  /** The output holds a fenced block: `re.search` returns a match. */
  predicate HasFence(s: string) {
    Search(s).Some?
  }

  /** The reported match is the only first match. */
  lemma FirstMatchUnique(s: string, m: FenceMatch)
    requires FirstMatch(s, m)
    ensures Search(s) == Some(m)
  {
    var n := Search(s).value;
    assert !Earlier(n, m) && !Earlier(m, n);
  }

  /** Group 1 of a match: the text between the tag and the closing fence. */
  function Group(s: string, m: FenceMatch): (g: string)
    requires Viable(s, m)
    ensures |g| == m.close - m.open - 3 - m.tagLen
    ensures forall k :: 0 <= k < |g| ==> g[k] == s[m.open + 3 + m.tagLen + k]
  {
    s[m.open + 3 + m.tagLen..m.close]
  }

  /** No backtick can start inside the tag's letters. */
  lemma NoBackticksInTag(s: string, p: int, k: int)
    requires OccursAt(s, Tag, p) && p <= k < p + |Tag|
    ensures !OccursAt(s, Backticks, k)
  {
    assert s[k] == Tag[k - p];
  }

  /** A fence exists exactly when some candidate fits. */
  lemma HasFenceIffViable(s: string)
    ensures HasFence(s) <==> exists m :: Viable(s, m)
  {
    if HasFence(s) {
      assert Viable(s, Search(s).value);
    }
  }

  /** A fence exists exactly when two non-overlapping runs of three
      backticks occur. */
  lemma HasFenceIffTwoRuns(s: string)
    ensures HasFence(s) <==>
      exists i, j :: OccursAt(s, Backticks, i) && OccursAt(s, Backticks, j) && i + 3 <= j
  {
    if HasFence(s) {
      var m := Search(s).value;
      assert OccursAt(s, Backticks, m.open) && OccursAt(s, Backticks, m.close);
    } else {
      forall i, j | OccursAt(s, Backticks, i) && OccursAt(s, Backticks, j) && i + 3 <= j
        ensures false
      {
        assert Viable(s, FenceMatch(i, 0, j));
      }
    }
  }

  /** The match found is the one the handler's comments describe: it opens
      at the first run of backticks in the text, takes the tag whenever the
      tag follows, and closes at the nearest later run of backticks. */
  lemma MatchShape(s: string, m: FenceMatch)
    requires FirstMatch(s, m)
    ensures forall k :: 0 <= k < m.open ==> !OccursAt(s, Backticks, k)
    ensures m.tagLen == |Tag| <==> OccursAt(s, Tag, m.open + 3)
    ensures forall k :: m.open + 3 <= k < m.close ==> !OccursAt(s, Backticks, k)
  {
    forall k | 0 <= k < m.open
      ensures !OccursAt(s, Backticks, k)
    {
      assert Earlier(FenceMatch(k, 0, m.close), m);
    }
    if OccursAt(s, Tag, m.open + 3) {
      forall k | m.open + 3 <= k < m.open + 3 + |Tag|
        ensures !OccursAt(s, Backticks, k)
      {
        NoBackticksInTag(s, m.open + 3, k);
      }
      assert m.open + 3 + |Tag| <= m.close;
      assert Viable(s, FenceMatch(m.open, |Tag|, m.close));
    }
    forall k | m.open + 3 <= k < m.close
      ensures !OccursAt(s, Backticks, k)
    {
      if m.open + 3 + m.tagLen <= k {
        assert Earlier(FenceMatch(m.open, m.tagLen, k), m);
      } else {
        NoBackticksInTag(s, m.open + 3, k);
      }
    }
  }

  /** Group 1 of the first match never contains a fence. */
  lemma GroupHasNoFence(s: string, m: FenceMatch)
    requires FirstMatch(s, m)
    ensures !Occurs(Group(s, m), Backticks)
  {
    var g := Group(s, m);
    var start := m.open + 3 + m.tagLen;
    forall k | OccursAt(g, Backticks, k)
      ensures false
    {
      assert s[start + k..start + k + 3] == g[k..k + 3];
      assert Earlier(FenceMatch(m.open, m.tagLen, start + k), m);
    }
  }
}
