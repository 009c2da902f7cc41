/** The Python built-ins the conversation memory and the prompt builder rely on:
    list slicing with negative, clamping bounds, `str.join`, and the
    `strip()`/`lower()` pair the chat loop applies to each input line. */
module PyText {

  /** Where a Python slice bound `i` lands in a sequence of length `n`:
      a negative bound counts from the end, and the result is clamped to `0..n`. */
  function SliceBound(n: nat, i: int): (k: nat)
    ensures k <= n
    ensures 0 <= i <= n ==> k == i
    ensures i > n ==> k == n
    ensures i < 0 && -i <= n ==> k == n + i
    ensures i + n < 0 ==> k == 0
  {
    if i < 0 then (if n + i < 0 then 0 else n + i)
    else if i > n then n
    else i
  }

  /** `s[i:]` */
  function SliceFrom<T>(s: seq<T>, i: int): (r: seq<T>)
    ensures i < 0 ==> |r| == if -i <= |s| then -i else |s|
    ensures |r| <= |s| && r == s[|s| - |r|..]
  {
    s[SliceBound(|s|, i)..]
  }

  /** `s[:j]` */
  function SliceTo<T>(s: seq<T>, j: int): (r: seq<T>)
    ensures j < 0 ==> |r| == if -j <= |s| then |s| + j else 0
    ensures |r| <= |s| && r == s[..|r|]
  {
    s[..SliceBound(|s|, j)]
  }

  /** Total number of characters in `xs`. */
  function SumLengths(xs: seq<string>): nat
  {
    if xs == [] then 0 else |xs[0]| + SumLengths(xs[1..])
  }

  /** `sep.join(xs)`: the pieces in order, with `sep` between consecutive ones. */
  function Join(xs: seq<string>, sep: string): (r: string)
    ensures |xs| == 0 ==> r == ""
    ensures |xs| > 0 ==> |r| == SumLengths(xs) + (|xs| - 1) * |sep|
  {
    if |xs| == 0 then ""
    else if |xs| == 1 then xs[0]
    else xs[0] + sep + Join(xs[1..], sep)
  }

  /** Where piece `i` starts inside `Join(xs, sep)`. */
  function PieceOffset(xs: seq<string>, sep: string, i: nat): nat
    requires i <= |xs|
  {
    SumLengths(xs[..i]) + i * |sep|
  }

  lemma {:induction false} SumLengthsStep(xs: seq<string>, i: nat)
    requires 0 < i <= |xs|
    ensures SumLengths(xs[..i]) == |xs[0]| + SumLengths(xs[1..][..i - 1])
  {
    assert xs[..i][0] == xs[0];
    assert xs[..i][1..] == xs[1..][..i - 1];
  }

  /** Piece `i` of `xs` sits, unchanged, at `PieceOffset(xs, sep, i)` in the joined text. */
  lemma {:induction false} JoinPieceAt(xs: seq<string>, sep: string, i: nat)
    requires i < |xs|
    ensures PieceOffset(xs, sep, i) + |xs[i]| <= |Join(xs, sep)|
    ensures Join(xs, sep)[PieceOffset(xs, sep, i)..PieceOffset(xs, sep, i) + |xs[i]|] == xs[i]
  {
    if i == 0 {
      assert xs[..0] == [];
    } else {
      JoinPieceAt(xs[1..], sep, i - 1);
      SumLengthsStep(xs, i);
      var off := PieceOffset(xs[1..], sep, i - 1);
      var head := xs[0] + sep;
      assert PieceOffset(xs, sep, i) == |head| + off;
      assert Join(xs, sep) == head + Join(xs[1..], sep);
      assert xs[1..][i - 1] == xs[i];
    }
  }

  /** Between piece `i` and piece `i + 1` the joined text holds exactly `sep`. */
  lemma {:induction false} JoinSeparatorAt(xs: seq<string>, sep: string, i: nat)
    requires i + 1 < |xs|
    ensures PieceOffset(xs, sep, i) + |xs[i]| + |sep| <= |Join(xs, sep)|
    ensures Join(xs, sep)[PieceOffset(xs, sep, i) + |xs[i]|..PieceOffset(xs, sep, i) + |xs[i]| + |sep|] == sep
  {
    if i == 0 {
      assert xs[..0] == [];
      assert Join(xs, sep) == xs[0] + sep + Join(xs[1..], sep);
    } else {
      JoinSeparatorAt(xs[1..], sep, i - 1);
      SumLengthsStep(xs, i);
      var off := PieceOffset(xs[1..], sep, i - 1);
      var head := xs[0] + sep;
      assert PieceOffset(xs, sep, i) == |head| + off;
      assert Join(xs, sep) == head + Join(xs[1..], sep);
      assert xs[1..][i - 1] == xs[i];
    }
  }

  /** With the empty separator (`''.join`), joining distributes over concatenation. */
  lemma {:induction false} JoinEmptyAppend(xs: seq<string>, ys: seq<string>)
    ensures Join(xs + ys, "") == Join(xs, "") + Join(ys, "")
  {
    if xs == [] {
      assert xs + ys == ys;
    } else if ys == [] {
      assert xs + ys == xs;
    } else if |xs| == 1 {
      assert (xs + ys)[1..] == ys;
    } else {
      JoinEmptyAppend(xs[1..], ys);
      assert (xs + ys)[1..] == xs[1..] + ys;
    }
  }

  /** Python's `str.isspace()` restricted to the ASCII range. */
  predicate IsSpace(c: char)
  {
    c == ' ' || c == '\t' || c == '\n' || c == '\r' || c == '\U{B}' || c == '\U{C}'
    || ('\U{1C}' <= c <= '\U{1F}')
  }

  predicate AllSpace(s: string)
  {
    forall k :: 0 <= k < |s| ==> IsSpace(s[k])
  }

  /** Number of whitespace characters at the front of `s`. */
  function LeadingSpaces(s: string): (k: nat)
    ensures k <= |s|
    ensures AllSpace(s[..k])
    ensures k < |s| ==> !IsSpace(s[k])
  {
    if s == [] || !IsSpace(s[0]) then 0 else 1 + LeadingSpaces(s[1..])
  }

  /** Number of whitespace characters at the back of `s`. */
  function TrailingSpaces(s: string): (k: nat)
    ensures k <= |s|
    ensures AllSpace(s[|s| - k..])
    ensures k < |s| ==> !IsSpace(s[|s| - k - 1])
  {
    if s == [] || !IsSpace(s[|s| - 1]) then 0 else 1 + TrailingSpaces(s[..|s| - 1])
  }

  /** `s.strip()` */
  function Strip(s: string): string
  {
    var t := s[LeadingSpaces(s)..];
    t[..|t| - TrailingSpaces(t)]
  }

  /** `strip()` keeps exactly the part of `s` between its leading and trailing
      whitespace: that part neither starts nor ends with whitespace, and
      everything around it is whitespace. */
  lemma StripTrims(s: string)
    ensures var r := Strip(s);
            && (r == [] || (!IsSpace(r[0]) && !IsSpace(r[|r| - 1])))
            && LeadingSpaces(s) + |r| <= |s|
            && r == s[LeadingSpaces(s)..LeadingSpaces(s) + |r|]
            && AllSpace(s[..LeadingSpaces(s)]) && AllSpace(s[LeadingSpaces(s) + |r|..])
  {
    var t := s[LeadingSpaces(s)..];
    var r := t[..|t| - TrailingSpaces(t)];
    assert s[LeadingSpaces(s) + |r|..] == t[|t| - TrailingSpaces(t)..];
  }

  lemma {:induction false} LeadingSpacesPadded(pre: string, s: string)
    requires AllSpace(pre)
    ensures LeadingSpaces(pre + s) == |pre| + LeadingSpaces(s)
    decreases |pre|
  {
    if pre == [] {
      assert pre + s == s;
    } else {
      assert (pre + s)[0] == pre[0];
      assert (pre + s)[1..] == pre[1..] + s;
      LeadingSpacesPadded(pre[1..], s);
    }
  }

  lemma {:induction false} TrailingSpacesPadded(s: string, post: string)
    requires AllSpace(post)
    ensures TrailingSpaces(s + post) == |post| + TrailingSpaces(s)
    decreases |post|
  {
    if post == [] {
      assert s + post == s;
    } else {
      var u := s + post;
      assert u[|u| - 1] == post[|post| - 1];
      assert u[..|u| - 1] == s + post[..|post| - 1];
      TrailingSpacesPadded(s, post[..|post| - 1]);
    }
  }

  lemma {:induction false} LeadingSpacesIs(s: string, k: nat)
    requires k < |s| && AllSpace(s[..k]) && !IsSpace(s[k])
    ensures LeadingSpaces(s) == k
    decreases k
  {
    if k > 0 {
      assert s[..k][0] == s[0];
      assert s[1..][..k - 1] == s[..k][1..];
      LeadingSpacesIs(s[1..], k - 1);
    }
  }

  lemma {:induction false} AllSpaceLeading(s: string)
    requires AllSpace(s)
    ensures LeadingSpaces(s) == |s|
    decreases |s|
  {
    if s != [] {
      AllSpaceLeading(s[1..]);
    }
  }

  /** Whitespace after `s` does not change where its leading whitespace ends,
      unless `s` is all whitespace. */
  lemma LeadingSpacesExtended(s: string, post: string)
    requires AllSpace(post)
    ensures LeadingSpaces(s) < |s| ==> LeadingSpaces(s + post) == LeadingSpaces(s)
    ensures LeadingSpaces(s) == |s| ==> LeadingSpaces(s + post) == |s + post|
  {
    var l := LeadingSpaces(s);
    var u := s + post;
    if l < |s| {
      assert u[..l] == s[..l];
      assert u[l] == s[l];
      LeadingSpacesIs(u, l);
    } else {
      forall k | 0 <= k < |u|
        ensures IsSpace(u[k])
      {
        if k < |s| {
          assert u[k] == s[..l][k];
        } else {
          assert u[k] == post[k - |s|];
        }
      }
      AllSpaceLeading(u);
    }
  }

  lemma StripPaddedBefore(pre: string, s: string)
    requires AllSpace(pre)
    ensures Strip(pre + s) == Strip(s)
  {
    LeadingSpacesPadded(pre, s);
    assert (pre + s)[LeadingSpaces(pre + s)..] == s[LeadingSpaces(s)..];
  }

  lemma StripPaddedAfter(s: string, post: string)
    requires AllSpace(post)
    ensures Strip(s + post) == Strip(s)
  {
    LeadingSpacesExtended(s, post);
    var l := LeadingSpaces(s);
    var t := (s + post)[LeadingSpaces(s + post)..];
    var core := s[l..];
    if l < |s| {
      assert t == core + post;
      TrailingSpacesPadded(core, post);
      var m := |core| - TrailingSpaces(core);
      assert t[..m] == core[..m];
    } else {
      assert t == [] && core == [];
    }
  }

  /** Whitespace around `s` does not change what `strip()` returns. */
  lemma StripPadded(pre: string, s: string, post: string)
    requires AllSpace(pre) && AllSpace(post)
    ensures Strip(pre + s + post) == Strip(s)
  {
    assert pre + s + post == pre + (s + post);
    StripPaddedBefore(pre, s + post);
    StripPaddedAfter(s, post);
  }

  /** `c.lower()` for ASCII letters; every other character is left as it is. */
  function LowerChar(c: char): char
  {
    if 'A' <= c <= 'Z' then (c as int + 32) as char else c
  }

  /** `s.lower()`, character by character. */
  function Lower(s: string): (r: string)
    ensures |r| == |s|
    ensures forall k :: 0 <= k < |s| ==> r[k] == LowerChar(s[k])
  {
    if s == [] then [] else [LowerChar(s[0])] + Lower(s[1..])
  }
}
