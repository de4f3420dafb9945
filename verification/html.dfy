/** `escapeHtml`: the four characters `& < > "` become entity references,
    every other character (the apostrophe included) is kept. A decoder for
    the four entities is its inverse. */
module Html {
  import opened Wrappers

  predicate IsHtmlSpecial(c: char) {
    c == '&' || c == '<' || c == '>' || c == '"'
  }

  /** The replacement for one character. */
  function EscapeHtmlChar(c: char): string {
    if c == '&' then "&amp;"
    else if c == '<' then "&lt;"
    else if c == '>' then "&gt;"
    else if c == '"' then "&quot;"
    else [c]
  }

  /** The number of occurrences of `c` in `s`. */
  function Count(s: string, c: char): nat {
    if s == [] then 0 else (if s[0] == c then 1 else 0) + Count(s[1..], c)
  }

  /** No `<`, `>` or `"` anywhere: the text cannot open a tag or close an
      attribute value. */
  predicate MarkupFree(s: string) {
    forall i :: 0 <= i < |s| ==> s[i] != '<' && s[i] != '>' && s[i] != '"'
  }

  /** `escapeHtml(s)` on a string. */
  function EscapeHtml(s: string): (r: string)
    ensures |r| == |s| + 4 * Count(s, '&') + 3 * Count(s, '<') + 3 * Count(s, '>') + 5 * Count(s, '"')
    ensures (forall i :: 0 <= i < |s| ==> !IsHtmlSpecial(s[i])) ==> r == s
  {
    if s == [] then [] else EscapeHtmlChar(s[0]) + EscapeHtml(s[1..])
  }

  /** The output of `escapeHtml` has no `<`, `>` or `"`. */
  lemma {:induction false} EscapedIsMarkupFree(s: string)
    ensures MarkupFree(EscapeHtml(s))
    decreases |s|
  {
    if s != [] {
      EscapedIsMarkupFree(s[1..]);
      var head := EscapeHtmlChar(s[0]);
      var tail := EscapeHtml(s[1..]);
      assert MarkupFree(head);
      forall i | 0 <= i < |head + tail|
        ensures (head + tail)[i] != '<' && (head + tail)[i] != '>' && (head + tail)[i] != '"'
      {
        if i >= |head| {
          assert (head + tail)[i] == tail[i - |head|];
        }
      }
    }
  }

  /** `escapeHtml(v)` on a value that may be null or undefined, which
      `String(s ?? "")` turns into the empty string. */
  function EscapeValue(v: Option<string>): (r: string)
    ensures v.None? ==> r == ""
    ensures v.Some? ==> r == EscapeHtml(v.value)
  {
    EscapeHtml(v.GetOr(""))
  }

  predicate StartsWith(s: string, p: string) {
    |p| <= |s| && s[..|p|] == p
  }

  /** Decodes the four entities `escapeHtml` produces; every other
      character is read as itself. */
  function UnescapeHtml(s: string): string
    decreases |s|
  {
    if s == [] then []
    else if StartsWith(s, "&amp;") then "&" + UnescapeHtml(s[5..])
    else if StartsWith(s, "&lt;") then "<" + UnescapeHtml(s[4..])
    else if StartsWith(s, "&gt;") then ">" + UnescapeHtml(s[4..])
    else if StartsWith(s, "&quot;") then "\"" + UnescapeHtml(s[6..])
    else [s[0]] + UnescapeHtml(s[1..])
  }

  /** A string that differs from `p` at position `k` does not start
      with `p`. */
  lemma DiffersAt(s: string, p: string, k: int)
    requires 0 <= k < |p| && (k < |s| ==> s[k] != p[k])
    ensures !StartsWith(s, p)
  {
    if |p| <= |s| {
      assert s[..|p|][k] == s[k];
    }
  }

  lemma StartsWithPrefix(p: string, t: string)
    ensures StartsWith(p + t, p) && (p + t)[|p|..] == t
  {
    assert (p + t)[..|p|] == p;
  }

  /** The replacement of one character decodes back to it, whatever
      follows. */
  lemma UnescapeChar(c: char, t: string)
    ensures UnescapeHtml(EscapeHtmlChar(c) + t) == [c] + UnescapeHtml(t)
  {
    var p := EscapeHtmlChar(c) + t;
    StartsWithPrefix(EscapeHtmlChar(c), t);
    if c == '&' {
    } else if c == '<' {
      DiffersAt(p, "&amp;", 1);
    } else if c == '>' {
      DiffersAt(p, "&amp;", 1);
      DiffersAt(p, "&lt;", 1);
    } else if c == '"' {
      DiffersAt(p, "&amp;", 1);
      DiffersAt(p, "&lt;", 1);
      DiffersAt(p, "&gt;", 1);
    } else {
      assert p[0] == c && p[1..] == t;
      DiffersAt(p, "&amp;", 0);
      DiffersAt(p, "&lt;", 0);
      DiffersAt(p, "&gt;", 0);
      DiffersAt(p, "&quot;", 0);
    }
  }

  /** Decoding recovers the input exactly: escaping loses nothing. */
  lemma {:induction false} UnescapeEscape(s: string)
    ensures UnescapeHtml(EscapeHtml(s)) == s
    decreases |s|
  {
    if s != [] {
      UnescapeEscape(s[1..]);
      UnescapeChar(s[0], EscapeHtml(s[1..]));
      assert [s[0]] + s[1..] == s;
    }
  }
}
