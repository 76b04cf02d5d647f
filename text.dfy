/**
 * String helpers with the exact behaviour of the library calls the three
 * components use: JavaScript's `trim`, `startsWith`, `split('\n')[0]` and
 * `includes`, and Go's `strings.HasPrefix`, `TrimPrefix`, `SplitN`, `ToLower`.
 */
module Text {
  import opened Wrappers

  /** The white space and line terminators that JavaScript's `String.prototype.trim` removes. */
  predicate IsSpace(c: char) {
    || c == ' ' || c == '\t' || c == '\n' || c == '\r' || c == '\U{000B}' || c == '\U{000C}'
    || c == '\U{00A0}' || c == '\U{1680}' || ('\U{2000}' <= c <= '\U{200A}')
    || c == '\U{2028}' || c == '\U{2029}' || c == '\U{202F}' || c == '\U{205F}'
    || c == '\U{3000}' || c == '\U{FEFF}'
  }

  predicate AllSpace(s: string) {
    forall i | 0 <= i < |s| :: IsSpace(s[i])
  }

  /** `s` with its leading white space removed. */
  function TrimStart(s: string): (r: string)
    ensures |r| <= |s| && r == s[|s| - |r|..]
    ensures AllSpace(s[..|s| - |r|])
    ensures r == [] || !IsSpace(r[0])
  {
    if s != [] && IsSpace(s[0]) then TrimStart(s[1..]) else s
  }

  /** `s` with its trailing white space removed. */
  function TrimEnd(s: string): (r: string)
    ensures |r| <= |s| && r == s[..|r|]
    ensures AllSpace(s[|r|..])
    ensures r == [] || !IsSpace(r[|r| - 1])
  {
    if s != [] && IsSpace(s[|s| - 1]) then TrimEnd(s[..|s| - 1]) else s
  }

  /** JavaScript's `s.trim()`. */
  function Trim(s: string): (r: string)
    ensures |r| <= |s|
    ensures r == [] || (!IsSpace(r[0]) && !IsSpace(r[|r| - 1]))
    ensures r == [] <==> AllSpace(s)
  {
    TrimBothEnds(s);
    TrimEnd(TrimStart(s))
  }

  /** Trimming both ends leaves nothing exactly when the text is all white space, and otherwise starts with a visible character. */
  lemma {:induction false} TrimBothEnds(s: string)
    ensures var r := TrimEnd(TrimStart(s));
            && (r == [] <==> AllSpace(s))
            && (r == [] || !IsSpace(r[0]))
  {
    var t := TrimStart(s);
    var r := TrimEnd(t);
    if r == [] {
      TrimmedToNothing(s);
    } else {
      assert r[0] == t[0];
      assert t[0] == s[|s| - |t|];
    }
  }

  /** When trimming both ends leaves nothing, every character was white space. */
  lemma {:induction false} TrimmedToNothing(s: string)
    requires TrimEnd(TrimStart(s)) == []
    ensures AllSpace(s)
  {
    var t := TrimStart(s);
    assert t == [] by {
      if t != [] {
        TrimEndKeepsVisibleStart(t);
      }
    }
    LeadingSpaceOnly(s);
  }

  /** Trimming the end of a text that starts with a visible character leaves that character. */
  lemma TrimEndKeepsVisibleStart(t: string)
    requires t != [] && !IsSpace(t[0])
    ensures TrimEnd(t) != []
  {
    var r := TrimEnd(t);
    assert AllSpace(t[|r|..]);
  }

  /** Trimming the start leaves nothing only when every character was white space. */
  lemma {:induction false} LeadingSpaceOnly(s: string)
    requires TrimStart(s) == []
    ensures AllSpace(s)
  {
    if s != [] {
      LeadingSpaceOnly(s[1..]);
      forall i | 1 <= i < |s|
        ensures IsSpace(s[i])
      {
        assert s[i] == s[1..][i - 1];
      }
    }
  }

  /** Leading white space is dropped and nothing else. */
  lemma {:induction false} TrimStartPadded(p: string, x: string)
    requires AllSpace(p)
    requires x == [] || !IsSpace(x[0])
    ensures TrimStart(p + x) == x
  {
    if p != [] {
      assert (p + x)[1..] == p[1..] + x;
      TrimStartPadded(p[1..], x);
    }
  }

  /** Trailing white space is dropped and nothing else. */
  lemma {:induction false} TrimEndPadded(x: string, q: string)
    requires AllSpace(q)
    requires x == [] || !IsSpace(x[|x| - 1])
    ensures TrimEnd(x + q) == x
  {
    if q != [] {
      assert (x + q)[..|x + q| - 1] == x + q[..|q| - 1];
      TrimEndPadded(x, q[..|q| - 1]);
    }
  }

  /** Trimming a text padded with white space on both sides gives back the text. */
  lemma TrimPadded(p: string, x: string, q: string)
    requires AllSpace(p) && AllSpace(q)
    requires x != [] && !IsSpace(x[0]) && !IsSpace(x[|x| - 1])
    ensures Trim(p + x + q) == x
  {
    assert p + x + q == p + (x + q);
    TrimStartPadded(p, x + q);
    TrimEndPadded(x, q);
  }

  predicate StartsWith(s: string, prefix: string) {
    |prefix| <= |s| && s[..|prefix|] == prefix
  }

  /** Go's `strings.TrimPrefix`. */
  function TrimPrefix(s: string, prefix: string): (r: string)
    ensures StartsWith(s, prefix) ==> s == prefix + r
    ensures !StartsWith(s, prefix) ==> r == s
  {
    if StartsWith(s, prefix) then s[|prefix|..] else s
  }

  /** JavaScript's `s.split('\n')[0]`: the text before the first line feed. */
  function FirstLine(s: string): (r: string)
    ensures StartsWith(s, r)
    ensures '\n' !in r
    ensures |r| == |s| || s[|r|] == '\n'
  {
    if s == [] || s[0] == '\n' then [] else [s[0]] + FirstLine(s[1..])
  }

  /** The first line of a text is recovered whatever follows its line feed. */
  lemma {:induction false} FirstLineOf(line: string, rest: string)
    requires '\n' !in line
    ensures FirstLine(line + "\n" + rest) == line
  {
    if line != [] {
      assert (line + "\n" + rest)[1..] == line[1..] + "\n" + rest;
      FirstLineOf(line[1..], rest);
    }
  }

  /** A line followed by a blank line is the first line of the text. */
  lemma FirstLineBeforeBlank(line: string, rest: string)
    ensures '\n' !in line ==> FirstLine(line + "\n\n" + rest) == line
  {
    if '\n' !in line {
      assert line + "\n\n" + rest == line + "\n" + ("\n" + rest);
      FirstLineOf(line, "\n" + rest);
    }
  }

  /** Whatever follows a text, the text's prefixes stay prefixes. */
  lemma StartsWithAppend(s: string, rest: string, prefix: string)
    requires StartsWith(s, prefix)
    ensures StartsWith(s + rest, prefix)
  {
    assert (s + rest)[..|prefix|] == s[..|prefix|];
  }

  /** The position of the first `c` in `s`, as Go's `strings.Index` and `SplitN(s, sep, 2)` find it. */
  function IndexOf(s: string, c: char): (r: Option<nat>)
    ensures r.None? <==> c !in s
    ensures r.Some? ==> r.value < |s| && s[r.value] == c && c !in s[..r.value]
  {
    if s == [] then None
    else if s[0] == c then Some(0)
    else
      match IndexOf(s[1..], c)
      case None => None
      case Some(i) =>
        assert s[1..][..i] == s[1..i + 1];
        Some(i + 1)
  }

  /** The separator found first is the one placed after a separator-free prefix. */
  lemma {:induction false} IndexOfAfter(prefix: string, c: char, rest: string)
    requires c !in prefix
    ensures IndexOf(prefix + [c] + rest, c) == Some(|prefix|)
  {
    if prefix != [] {
      assert (prefix + [c] + rest)[1..] == prefix[1..] + [c] + rest;
      IndexOfAfter(prefix[1..], c, rest);
    }
  }

  /** ASCII lower-casing; no other character lower-cases to a letter of "curl". */
  function ToLowerAscii(s: string): (r: string)
    ensures |r| == |s|
    ensures forall i | 0 <= i < |s| :: r[i] == (if 'A' <= s[i] <= 'Z' then (s[i] as int + 32) as char else s[i])
  {
    seq(|s|, i requires 0 <= i < |s| => if 'A' <= s[i] <= 'Z' then (s[i] as int + 32) as char else s[i])
  }

  /** Go's `strings.Contains` and JavaScript's `includes`. */
  predicate Contains(s: string, part: string)
    decreases |s|
  {
    StartsWith(s, part) || (s != [] && Contains(s[1..], part))
  }
}
