/**
 The string primitives the question handler relies on: Python's `str.strip()`,
 `str.lower()`, the substring test `pat in s`, `str.find` and `sep.join(parts)`,
 all restricted to ASCII semantics.
 */
module Text {
  import opened Wrappers

  /** `str.isspace()` on ASCII: tab, line feed, vertical tab, form feed,
      carriage return, the four information separators and the space. */
  predicate IsSpace(c: char) {
    ('\t' <= c <= '\r') || ('\U{1C}' <= c <= ' ')
  }

  ghost predicate AllSpace(s: string) {
    forall i :: 0 <= i < |s| ==> IsSpace(s[i])
  }

  /** Neither the first nor the last character is whitespace. */
  predicate Bare(s: string) {
    |s| == 0 || (!IsSpace(s[0]) && !IsSpace(s[|s| - 1]))
  }

  /** `r` sits at offset `i` of `s` and only whitespace surrounds it. */
  ghost predicate Framed(s: string, r: string, i: int) {
    && 0 <= i <= |s| - |r|
    && s[i..i + |r|] == r
    && AllSpace(s[..i])
    && AllSpace(s[i + |r|..])
  }

  /** Dropping one leading whitespace character keeps the suffix and the
      all-whitespace cut. */
  lemma DropFirstSpace(s: string, r: string)
    requires |s| > 0 && IsSpace(s[0])
    requires |r| <= |s| - 1 && r == s[1..][|s| - 1 - |r|..] && AllSpace(s[1..][..|s| - 1 - |r|])
    ensures r == s[|s| - |r|..] && AllSpace(s[..|s| - |r|])
  {
    var cut, rest := s[..|s| - |r|], s[1..][..|s| - 1 - |r|];
    forall k | 0 <= k < |cut|
      ensures IsSpace(cut[k])
    {
      if k > 0 {
        assert cut[k] == rest[k - 1];
      }
    }
  }

  /** `s.lstrip()`: the suffix left after dropping leading whitespace. */
  function TrimStart(s: string): (r: string)
    ensures |r| <= |s| && r == s[|s| - |r|..]
    ensures AllSpace(s[..|s| - |r|])
    ensures |r| == 0 || !IsSpace(r[0])
  {
    if |s| > 0 && IsSpace(s[0]) then
      var r := TrimStart(s[1..]);
      DropFirstSpace(s, r);
      r
    else
      s
  }

  /** Dropping one trailing whitespace character keeps the prefix and the
      all-whitespace cut. */
  lemma DropLastSpace(s: string, r: string)
    requires |s| > 0 && IsSpace(s[|s| - 1])
    requires |r| <= |s| - 1 && r == s[..|s| - 1][..|r|] && AllSpace(s[..|s| - 1][|r|..])
    ensures r == s[..|r|] && AllSpace(s[|r|..])
  {
    var cut, rest := s[|r|..], s[..|s| - 1][|r|..];
    forall k | 0 <= k < |cut|
      ensures IsSpace(cut[k])
    {
      if k < |rest| {
        assert cut[k] == rest[k];
      }
    }
  }

  /** `s.rstrip()`: the prefix left after dropping trailing whitespace. */
  function TrimEnd(s: string): (r: string)
    ensures |r| <= |s| && r == s[..|r|]
    ensures AllSpace(s[|r|..])
    ensures |r| == 0 || !IsSpace(r[|r| - 1])
  {
    if |s| > 0 && IsSpace(s[|s| - 1]) then
      var r := TrimEnd(s[..|s| - 1]);
      DropLastSpace(s, r);
      r
    else
      s
  }

  /** `s.strip()`. */
  function Strip(s: string): (r: string)
    ensures |r| <= |s|
    ensures Bare(r)
  {
    TrimEnd(TrimStart(s))
  }

  /** A prefix of a suffix of `s` is framed in `s` when both cuts removed
      only whitespace. */
  lemma FramedByCuts(s: string, t: string, r: string)
    requires |t| <= |s| && t == s[|s| - |t|..] && AllSpace(s[..|s| - |t|])
    requires |r| <= |t| && r == t[..|r|] && AllSpace(t[|r|..])
    ensures Framed(s, r, |s| - |t|)
  {
    var i := |s| - |t|;
    assert s[i..i + |r|] == r;
    assert s[i + |r|..] == t[|r|..];
  }

  /** What `strip` returns is bare, and in `s` it is surrounded by nothing
      but whitespace. */
  lemma StripFramed(s: string)
    ensures Bare(Strip(s))
    ensures Framed(s, Strip(s), |s| - |TrimStart(s)|)
  {
    FramedByCuts(s, TrimStart(s), Strip(s));
  }

  /** A bare, non-empty string framed in `s` starts at the first
      non-whitespace character of `s` and ends at the last one. */
  lemma FramedBareBounds(s: string, t: string, j: int)
    requires Bare(t) && Framed(s, t, j) && |t| > 0
    ensures forall k :: 0 <= k < j ==> IsSpace(s[k])
    ensures !IsSpace(s[j]) && !IsSpace(s[j + |t| - 1])
    ensures forall k :: j + |t| <= k < |s| ==> IsSpace(s[k])
  {
    assert s[j] == t[0] && s[j + |t| - 1] == t[|t| - 1];
    forall k | 0 <= k < j ensures IsSpace(s[k]) {
      assert s[..j][k] == s[k];
    }
    forall k | j + |t| <= k < |s| ensures IsSpace(s[k]) {
      assert s[j + |t|..][k - j - |t|] == s[k];
    }
  }

  /** A bare framed string is empty exactly when `s` is all whitespace. */
  lemma FramedBareEmpty(s: string, t: string, j: int)
    requires Bare(t) && Framed(s, t, j)
    ensures |t| == 0 <==> AllSpace(s)
  {
    if |t| == 0 {
      forall k | 0 <= k < |s| ensures IsSpace(s[k]) {
        if k < j { assert s[..j][k] == s[k]; } else { assert s[j..][k - j] == s[k]; }
      }
    } else {
      assert s[j] == t[0];
    }
  }

  /** Two bare strings framed by whitespace in the same `s` are equal. */
  lemma FramedBareUnique(s: string, t: string, j: int, r: string, i: int)
    requires Bare(t) && Framed(s, t, j)
    requires Bare(r) && Framed(s, r, i)
    ensures t == r
  {
    FramedBareEmpty(s, t, j);
    FramedBareEmpty(s, r, i);
    if |t| > 0 {
      FramedBareBounds(s, t, j);
      FramedBareBounds(s, r, i);
      assert j == i && |t| == |r|;
    }
  }

  /** Any bare string framed by whitespace in `s` is exactly what `strip`
      returns: the two clauses of `StripFramed` determine it. */
  lemma StripUnique(s: string, t: string, j: int)
    requires Bare(t) && Framed(s, t, j)
    ensures t == Strip(s)
  {
    var r, i := Strip(s), |s| - |TrimStart(s)|;
    assert Bare(r) && Framed(s, r, i) by { StripFramed(s); }
    FramedBareUnique(s, t, j, r, i);
  }

  /** A bare string padded on both sides with whitespace strips back to
      itself. */
  lemma StripPadded(a: string, t: string, b: string)
    requires AllSpace(a) && Bare(t) && AllSpace(b)
    ensures Strip(a + t + b) == t
  {
    var s := a + t + b;
    assert s[..|a|] == a && s[|a|..|a| + |t|] == t && s[|a| + |t|..] == b;
    StripUnique(s, t, |a|);
  }

  /** A bare string is its own strip. */
  lemma StripBare(s: string)
    requires Bare(s)
    ensures Strip(s) == s
  {
    assert s[..0] == [] && s[0..|s|] == s && s[|s|..] == [];
    StripUnique(s, s, 0);
  }

  /** Stripping twice changes nothing, and a string is its own strip
      exactly when it is bare. */
  lemma StripIdempotent(s: string)
    ensures Strip(Strip(s)) == Strip(s)
    ensures Strip(s) == s <==> Bare(s)
  {
    StripBare(Strip(s));
    if Bare(s) {
      StripBare(s);
    }
  }

  predicate IsUpper(c: char) {
    'A' <= c <= 'Z'
  }

  /** ASCII `c.lower()`: an upper-case letter moves to its lower-case
      partner; every other character is kept. */
  function LowerChar(c: char): (d: char)
    ensures !IsUpper(d)
    ensures IsUpper(c) ==> d as int == c as int + 32
    ensures !IsUpper(c) ==> d == c
  {
    if IsUpper(c) then (c as int + 32) as char else c
  }

  /** ASCII `s.lower()`. */
  function Lower(s: string): (r: string)
    ensures |r| == |s|
    ensures forall i :: 0 <= i < |r| ==> !IsUpper(r[i])
    ensures forall i :: 0 <= i < |s| && !IsUpper(s[i]) ==> r[i] == s[i]
    ensures forall i :: 0 <= i < |s| && IsUpper(s[i]) ==> r[i] as int == s[i] as int + 32
  {
    seq(|s|, i requires 0 <= i < |s| => LowerChar(s[i]))
  }

  /** Lower-casing is idempotent and distributes over concatenation. */
  lemma LowerLaws(a: string, b: string)
    ensures Lower(Lower(a)) == Lower(a)
    ensures Lower(a + b) == Lower(a) + Lower(b)
  {
    assert forall i :: 0 <= i < |a| ==> (a + b)[i] == a[i];
    assert forall i :: 0 <= i < |b| ==> (a + b)[|a| + i] == b[i];
  }

  /** `pat` occurs in `s` starting at index `k`. */
  predicate OccursAt(s: string, pat: string, k: int) {
    0 <= k && k + |pat| <= |s| && s[k..k + |pat|] == pat
  }

  ghost predicate Occurs(s: string, pat: string) {
    exists k :: OccursAt(s, pat, k)
  }

  /** `s.find(pat, from)`: the leftmost occurrence of `pat` at or after `from`. */
  function FindFrom(s: string, pat: string, from: nat): (r: Option<nat>)
    ensures r.Some? ==> from <= r.value && OccursAt(s, pat, r.value)
    ensures forall k :: from <= k && (r.None? || k < r.value) ==> !OccursAt(s, pat, k)
    decreases |s| - from
  {
    if from + |pat| > |s| then None
    else if s[from..from + |pat|] == pat then Some(from)
    else FindFrom(s, pat, from + 1)
  }

  /** A pattern cannot start where its first two characters do not
      appear side by side. */
  lemma NoStartNoOccurrence(s: string, pat: string, a: int, b: int)
    requires |pat| >= 2
    requires forall i :: a <= i < b && 0 <= i && i + 1 < |s| ==> s[i] != pat[0] || s[i + 1] != pat[1]
    ensures forall k :: a <= k < b ==> !OccursAt(s, pat, k)
  {
    forall k | a <= k < b
      ensures !OccursAt(s, pat, k)
    {
      if 0 <= k && k + |pat| <= |s| {
        assert s[k..k + |pat|][0] == s[k] && s[k..k + |pat|][1] == s[k + 1];
      }
    }
  }

  /** Python's `pat in s`. */
  function Contains(s: string, pat: string): (r: bool)
    ensures r <==> Occurs(s, pat)
  {
    FindFrom(s, pat, 0).Some?
  }

  /** An occurrence in `s` is an occurrence in any string that embeds `s`. */
  lemma OccursWithin(a: string, s: string, b: string, pat: string)
    requires Occurs(s, pat)
    ensures Occurs(a + s + b, pat)
  {
    var k :| OccursAt(s, pat, k);
    assert (a + s + b)[|a| + k..|a| + k + |pat|] == s[k..k + |pat|];
    assert OccursAt(a + s + b, pat, |a| + k);
  }

  /** An occurrence in a slice of `s` is an occurrence in `s`. */
  lemma OccursInSlice(s: string, i: int, j: int, pat: string)
    requires 0 <= i <= j <= |s| && Occurs(s[i..j], pat)
    ensures Occurs(s, pat)
  {
    var k :| OccursAt(s[i..j], pat, k);
    forall m | 0 <= m < |pat|
      ensures s[i + k + m] == pat[m]
    {
      assert s[i..j][k..k + |pat|][m] == s[i + k + m];
    }
    assert s[i + k..i + k + |pat|] == pat;
    assert OccursAt(s, pat, i + k);
  }

  /** Whatever occurs in the stripped text occurs in the original. */
  lemma StripKeepsOccurrences(s: string, pat: string)
    requires Occurs(Strip(s), pat)
    ensures Occurs(s, pat)
  {
    var i := |s| - |TrimStart(s)|;
    StripFramed(s);
    OccursInSlice(s, i, i + |Strip(s)|, pat);
  }

  /** `sep.join(parts)`. */
  function Join(parts: seq<string>, sep: string): (r: string)
    ensures |parts| == 0 ==> r == ""
    ensures |parts| == 1 ==> r == parts[0]
    ensures |parts| > 0 ==> |parts[0]| <= |r| && r[..|parts[0]|] == parts[0]
    ensures |parts| > 0 ==> |parts[|parts| - 1]| <= |r| && r[|r| - |parts[|parts| - 1]|..] == parts[|parts| - 1]
  {
    if |parts| == 0 then ""
    else if |parts| == 1 then parts[0]
    else parts[0] + sep + Join(parts[1..], sep)
  }

  /** Every part can be found in the joined string. */
  lemma {:induction false} JoinContainsEach(parts: seq<string>, sep: string, i: int)
    requires 0 <= i < |parts|
    ensures Occurs(Join(parts, sep), parts[i])
  {
    if i == 0 {
      assert OccursAt(Join(parts, sep), parts[0], 0);
    } else {
      JoinContainsEach(parts[1..], sep, i - 1);
      OccursWithin(parts[0] + sep, Join(parts[1..], sep), "", parts[i]);
      assert parts[0] + sep + Join(parts[1..], sep) + "" == Join(parts, sep);
    }
  }

  /** Concatenation regroups freely. */
  lemma Regroup(a: string, b: string, c: string, d: string, e: string)
    ensures a + b + (c + d + e) == (a + b + c) + d + e
  {
  }

  /** Two or more parts join as the first, the separator, and the rest. */
  lemma JoinCons(parts: seq<string>, sep: string)
    requires 1 < |parts|
    ensures Join(parts, sep) == parts[0] + sep + Join(parts[1..], sep)
  {
  }

  /** The split after the first part. */
  lemma JoinSplitFirst(parts: seq<string>, sep: string)
    requires 1 < |parts|
    ensures Join(parts, sep) == Join(parts[..1], sep) + sep + Join(parts[1..], sep)
  {
    assert parts[..1] == [parts[0]];
    JoinCons(parts, sep);
  }

  /** Cutting the first element and then at `i - 1` is cutting at `i`
      and then the first element. */
  lemma SliceShift(parts: seq<string>, i: int)
    requires 1 < i < |parts|
    ensures parts[1..][..i - 1] == parts[..i][1..]
    ensures parts[1..][i - 1..] == parts[i..]
  {
  }

  /** A split of the parts after the first lifts to a split of all parts. */
  lemma JoinSplitLift(parts: seq<string>, sep: string, i: int)
    requires 1 < i < |parts|
    requires Join(parts[1..], sep) == Join(parts[1..][..i - 1], sep) + sep + Join(parts[1..][i - 1..], sep)
    ensures Join(parts, sep) == Join(parts[..i], sep) + sep + Join(parts[i..], sep)
  {
    SliceShift(parts, i);
    JoinCons(parts[..i], sep);
    JoinCons(parts, sep);
    Regroup(parts[0], sep, Join(parts[..i][1..], sep), sep, Join(parts[i..], sep));
  }

  /** Joining splits at any inner boundary: the parts before it and the
      parts after it, joined on their own, with one separator between. */
  lemma {:induction false} JoinSplit(parts: seq<string>, sep: string, i: int)
    requires 0 < i < |parts|
    ensures Join(parts, sep) == Join(parts[..i], sep) + sep + Join(parts[i..], sep)
    decreases |parts|, 1
  {
    if i == 1 {
      JoinSplitFirst(parts, sep);
    } else {
      JoinSplitLater(parts, sep, i);
    }
  }

  /** The split at a boundary after the second part, from the split of the
      parts after the first. */
  lemma {:induction false} JoinSplitLater(parts: seq<string>, sep: string, i: int)
    requires 1 < i < |parts|
    ensures Join(parts, sep) == Join(parts[..i], sep) + sep + Join(parts[i..], sep)
    decreases |parts|, 0
  {
    JoinSplit(parts[1..], sep, i - 1);
    JoinSplitLift(parts, sep, i);
  }
}
