/**
 * The JavaScript string operations the core relies on: `startsWith`, `split` and `join` with a
 * non-empty separator, and `trim`. They are defined once here and shared by the GCS URI parser,
 * the label splitting of the dashboard and the markdown built from a recommendation.
 */
module Text {
  import opened Wrappers

  /** `s.startsWith(prefix)`. */
  predicate StartsWith(s: string, prefix: string) {
    |prefix| <= |s| && s[..|prefix|] == prefix
  }

  /** The separator occurs in `s` starting at index `k`. */
  predicate OccursAt(s: string, k: int, sep: string) {
    0 <= k && k + |sep| <= |s| && s[k..k + |sep|] == sep
  }

  /** The first index at or after `from` where `sep` occurs: JavaScript's `s.indexOf(sep, from)`. */
  function IndexOf(s: string, sep: string, from: nat): (r: Option<nat>)
    requires |sep| > 0
    ensures r.Some? ==> from <= r.value && OccursAt(s, r.value, sep)
    ensures r.Some? ==> forall k :: from <= k < r.value ==> !OccursAt(s, k, sep)
    ensures r.None? ==> forall k :: from <= k ==> !OccursAt(s, k, sep)
    decreases |s| - from
  {
    if from + |sep| > |s| then None
    else if OccursAt(s, from, sep) then Some(from)
    else IndexOf(s, sep, from + 1)
  }

  /** `s.split(sep)`: the pieces between the non-overlapping occurrences of `sep`, left to right. */
  function Split(s: string, sep: string): (parts: seq<string>)
    requires |sep| > 0
    ensures |parts| >= 1
    decreases |s|
  {
    match IndexOf(s, sep, 0)
    case None => [s]
    case Some(k) => [s[..k]] + Split(s[k + |sep|..], sep)
  }

  /** `parts.join(sep)`. */
  function Join(parts: seq<string>, sep: string): string
    decreases |parts|
  {
    if |parts| == 0 then ""
    else if |parts| == 1 then parts[0]
    else parts[0] + sep + Join(parts[1..], sep)
  }

  /** Joining the pieces of a split with the same separator gives back the string. */
  lemma {:induction false} JoinSplit(s: string, sep: string)
    requires |sep| > 0
    ensures Join(Split(s, sep), sep) == s
    decreases |s|
  {
    var r := IndexOf(s, sep, 0);
    if r.Some? {
      var k := r.value;
      var rest := s[k + |sep|..];
      SplitAtIndex(s, sep, k);
      JoinSplit(rest, sep);
      JoinCons(s[..k], Split(rest, sep), sep);
      CutAt(s, sep, k);
    }
  }

  /** The split at the first occurrence `k`: the piece before it, then the split of the rest. */
  lemma SplitAtIndex(s: string, sep: string, k: nat)
    requires |sep| > 0 && IndexOf(s, sep, 0) == Some(k)
    ensures Split(s, sep) == [s[..k]] + Split(s[k + |sep|..], sep)
  {
  }

  /** A string is the text before an occurrence of `sep`, `sep` itself and the text after it. */
  lemma CutAt(s: string, sep: string, k: nat)
    requires OccursAt(s, k, sep)
    ensures s == s[..k] + sep + s[k + |sep|..]
  {
    assert s == s[..k] + s[k..k + |sep|] + s[k + |sep|..];
  }

  /** Joining a piece in front of at least one more. */
  lemma JoinCons(head: string, tail: seq<string>, sep: string)
    requires |tail| >= 1
    ensures Join([head] + tail, sep) == head + sep + Join(tail, sep)
  {
    assert ([head] + tail)[1..] == tail;
  }

  /** No piece of a split contains the separator. */
  lemma {:induction false} SplitPiecesAreFree(s: string, sep: string)
    requires |sep| > 0
    ensures forall i, k :: 0 <= i < |Split(s, sep)| ==> !OccursAt(Split(s, sep)[i], k, sep)
    decreases |s|
  {
    var r := IndexOf(s, sep, 0);
    if r.Some? {
      var k := r.value;
      var rest := s[k + |sep|..];
      SplitPiecesAreFree(rest, sep);
      var parts := Split(s, sep);
      assert parts == [s[..k]] + Split(rest, sep);
      forall j ensures !OccursAt(s[..k], j, sep) {
        if 0 <= j && j + |sep| <= k {
          assert s[..k][j..j + |sep|] == s[j..j + |sep|];
          assert !OccursAt(s, j, sep);
        }
      }
      forall i, j | 0 <= i < |parts|
        ensures !OccursAt(parts[i], j, sep)
      {
        if i > 0 {
          assert parts[i] == Split(rest, sep)[i - 1];
        }
      }
    }
  }

  /** A string in which the separator never occurs splits into itself alone. */
  lemma SplitWithoutSeparator(s: string, sep: string)
    requires |sep| > 0
    requires forall k :: !OccursAt(s, k, sep)
    ensures Split(s, sep) == [s]
  {
    assert IndexOf(s, sep, 0).None?;
  }

  /**
   * When no occurrence of the separator starts inside `pre`, splitting `pre + sep + post`
   * yields `pre` followed by the pieces of `post`.
   */
  lemma SplitAtFirst(pre: string, sep: string, post: string)
    requires |sep| > 0
    requires forall k :: 0 <= k < |pre| ==> !OccursAt(pre + sep + post, k, sep)
    ensures Split(pre + sep + post, sep) == [pre] + Split(post, sep)
  {
    var s := pre + sep + post;
    assert s[|pre|..|pre| + |sep|] == sep;
    assert OccursAt(s, |pre|, sep);
    assert IndexOf(s, sep, 0) == Some(|pre|);
    assert s[..|pre|] == pre;
    assert s[|pre| + |sep|..] == post;
  }

  /** A separator whose first character does not appear in `pre` cannot start inside `pre`. */
  lemma NoOccurrenceInside(pre: string, sep: string, post: string)
    requires |sep| > 0 && sep[0] !in pre
    ensures forall k :: 0 <= k < |pre| ==> !OccursAt(pre + sep + post, k, sep)
  {
    var s := pre + sep + post;
    forall k | 0 <= k < |pre| ensures !OccursAt(s, k, sep) {
      assert s[k] == pre[k] != sep[0];
      if k + |sep| <= |s| {
        assert s[k..k + |sep|][0] == s[k];
      }
    }
  }

  /** A one-character separator occurs exactly where the character does. */
  lemma OccursAtChar(s: string, c: char)
    ensures forall k :: 0 <= k < |s| ==> (OccursAt(s, k, [c]) <==> s[k] == c)
  {
    forall k | 0 <= k < |s| ensures OccursAt(s, k, [c]) <==> s[k] == c {
      assert s[k..k + 1] == [s[k]];
    }
  }

  /** The whitespace and line terminators JavaScript's `trim` removes (Zs beyond U+00A0 aside). */
  predicate IsWhitespace(c: char) {
    c == ' ' || c == '\t' || c == '\n' || c == '\r' || c == '\U{B}' || c == '\U{C}'
    || c == '\U{A0}' || c == '\U{FEFF}' || c == '\U{2028}' || c == '\U{2029}'
  }

  /** `s.trimStart()`. */
  function TrimStart(s: string): (r: string)
    ensures |r| <= |s| && r == s[|s| - |r|..]
    ensures r == [] || !IsWhitespace(r[0])
    ensures forall k :: 0 <= k < |s| - |r| ==> IsWhitespace(s[k])
  {
    if s != [] && IsWhitespace(s[0]) then TrimStart(s[1..]) else s
  }

  /** `s.trimEnd()`. */
  function TrimEnd(s: string): (r: string)
    ensures |r| <= |s| && r == s[..|r|]
    ensures r == [] || !IsWhitespace(r[|r| - 1])
    ensures forall k :: |r| <= k < |s| ==> IsWhitespace(s[k])
  {
    if s != [] && IsWhitespace(s[|s| - 1]) then TrimEnd(s[..|s| - 1]) else s
  }

  /** `s.trim()`. */
  function Trim(s: string): string {
    TrimEnd(TrimStart(s))
  }

  /** Appending whitespace does not change what `trimEnd` keeps. */
  lemma {:induction false} TrimEndIgnoresTrailingSpace(s: string, ws: string)
    requires forall k :: 0 <= k < |ws| ==> IsWhitespace(ws[k])
    ensures TrimEnd(s + ws) == TrimEnd(s)
    decreases |ws|
  {
    if ws != [] {
      var w := ws[..|ws| - 1];
      assert (s + ws)[|s + ws| - 1] == ws[|ws| - 1];
      assert (s + ws)[..|s + ws| - 1] == s + w;
      assert TrimEnd(s + ws) == TrimEnd(s + w);
      TrimEndIgnoresTrailingSpace(s, w);
    } else {
      assert s + ws == s;
    }
  }

  /**
   * Trimming `lead + body + trail`, with whitespace-only `lead` and `trail` and a body that
   * starts with a non-whitespace character, trims the body's end only.
   */
  lemma {:induction false} TrimAround(lead: string, body: string, trail: string)
    requires forall k :: 0 <= k < |lead| ==> IsWhitespace(lead[k])
    requires forall k :: 0 <= k < |trail| ==> IsWhitespace(trail[k])
    requires body != [] && !IsWhitespace(body[0])
    ensures Trim(lead + body + trail) == TrimEnd(body)
    decreases |lead|
  {
    if lead == [] {
      assert lead + body + trail == body + trail;
      TrimEndIgnoresTrailingSpace(body, trail);
    } else {
      assert (lead + body + trail)[1..] == lead[1..] + body + trail;
      TrimAround(lead[1..], body, trail);
    }
  }
}
