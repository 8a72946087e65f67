/**
 * The string operations the reconciliation uses: Python's `str.strip()`,
 * `upper()`, `lower()`, the `in` test for substrings and `replace(p, '')`.
 */
module Text {

  /** The characters Python's `str.isspace()` accepts, which `str.strip()` removes. */
  predicate IsSpace(c: char) {
    || c == ' '
    || ('\t' <= c <= '\r')
    || ('\U{1c}' <= c <= '\U{1f}')
    || c == '\U{85}' || c == '\U{a0}' || c == '\U{1680}'
    || ('\U{2000}' <= c <= '\U{200a}')
    || c == '\U{2028}' || c == '\U{2029}' || c == '\U{202f}' || c == '\U{205f}' || c == '\U{3000}'
  }

  /** Drops leading whitespace. */
  function TrimStart(s: string): (r: string)
    ensures |r| <= |s| && r == s[|s| - |r|..]
    ensures |r| == 0 || !IsSpace(r[0])
    ensures forall i | 0 <= i < |s| - |r| :: IsSpace(s[i])
  {
    if |s| > 0 && IsSpace(s[0]) then TrimStart(s[1..]) else s
  }

  /** Drops trailing whitespace. */
  function TrimEnd(s: string): (r: string)
    ensures |r| <= |s| && r == s[..|r|]
    ensures |r| == 0 || !IsSpace(r[|r| - 1])
    ensures forall i | |r| <= i < |s| :: IsSpace(s[i])
  {
    if |s| > 0 && IsSpace(s[|s| - 1]) then TrimEnd(s[..|s| - 1]) else s
  }

  /** Python's `s.strip()`: the text between the outer runs of whitespace. */
  function Strip(s: string): (r: string)
    ensures |r| <= |s|
    ensures |r| == 0 || (!IsSpace(r[0]) && !IsSpace(r[|r| - 1]))
    ensures forall c | c in r :: c in s
  {
    var t := TrimStart(s);
    assert forall c | c in t :: c in s by {
      forall c | c in t ensures c in s {
        var i :| 0 <= i < |t| && t[i] == c;
        assert s[|s| - |t| + i] == c;
      }
    }
    TrimEnd(t)
  }

  /** Leading whitespace in front of a non-blank text is dropped. */
  lemma {:induction false} TrimStartPadded(pre: string, rest: string)
    requires forall i | 0 <= i < |pre| :: IsSpace(pre[i])
    requires |rest| > 0 && !IsSpace(rest[0])
    ensures TrimStart(pre + rest) == rest
  {
    if pre == [] {
      assert pre + rest == rest;
    } else {
      assert (pre + rest)[1..] == pre[1..] + rest;
      assert (pre + rest)[0] == pre[0];
      TrimStartPadded(pre[1..], rest);
    }
  }

  /** Trailing whitespace after a non-blank text is dropped. */
  lemma {:induction false} TrimEndPadded(rest: string, post: string)
    requires forall i | 0 <= i < |post| :: IsSpace(post[i])
    requires |rest| > 0 && !IsSpace(rest[|rest| - 1])
    ensures TrimEnd(rest + post) == rest
  {
    if post == [] {
      assert rest + post == rest;
    } else {
      var s := rest + post;
      assert s[..|s| - 1] == rest + post[..|post| - 1];
      assert s[|s| - 1] == post[|post| - 1];
      TrimEndPadded(rest, post[..|post| - 1]);
    }
  }

  /** Stripping text that is surrounded by whitespace only gives that text back. */
  lemma StripPadded(pre: string, core: string, post: string)
    requires forall i | 0 <= i < |pre| :: IsSpace(pre[i])
    requires forall i | 0 <= i < |post| :: IsSpace(post[i])
    requires |core| > 0 && !IsSpace(core[0]) && !IsSpace(core[|core| - 1])
    ensures Strip(pre + core + post) == core
  {
    assert pre + core + post == pre + (core + post);
    assert (core + post)[0] == core[0];
    TrimStartPadded(pre, core + post);
    TrimEndPadded(core, post);
  }

  /** Stripping a text that has one space in front of it. */
  lemma StripSpaceBefore(core: string)
    requires |core| > 0 && !IsSpace(core[0]) && !IsSpace(core[|core| - 1])
    ensures Strip(" " + core) == core
  {
    assert " " + core + "" == " " + core;
    StripPadded(" ", core, "");
  }

  function UpperChar(c: char): char {
    if 'a' <= c <= 'z' then (c as int - 32) as char else c
  }

  function LowerChar(c: char): char {
    if 'A' <= c <= 'Z' then (c as int + 32) as char else c
  }

  /**
   * Python's `s.upper()`, restricted to the ASCII letters: no lower-case
   * letter is left, and every other character keeps its place.
   */
  function Upper(s: string): (r: string)
    ensures |r| == |s|
    ensures forall i | 0 <= i < |r| :: !('a' <= r[i] <= 'z')
    ensures forall i | 0 <= i < |s| && !('a' <= s[i] <= 'z') :: r[i] == s[i]
  {
    seq(|s|, i requires 0 <= i < |s| => UpperChar(s[i]))
  }

  /**
   * Python's `s.lower()`, restricted to the ASCII letters: no upper-case
   * letter is left, and every other character keeps its place.
   */
  function Lower(s: string): (r: string)
    ensures |r| == |s|
    ensures forall i | 0 <= i < |r| :: !('A' <= r[i] <= 'Z')
    ensures forall i | 0 <= i < |s| && !('A' <= s[i] <= 'Z') :: r[i] == s[i]
  {
    seq(|s|, i requires 0 <= i < |s| => LowerChar(s[i]))
  }

  /** `needle` occurs in `hay` starting at position `i`. */
  predicate OccursAt(hay: string, needle: string, i: nat) {
    i + |needle| <= |hay| && hay[i..i + |needle|] == needle
  }

  /** Python's `needle in hay` for two strings. */
  predicate Contains(hay: string, needle: string) {
    exists i: nat | i <= |hay| :: OccursAt(hay, needle, i)
  }

  /** A needle with a character that `hay` lacks does not occur in `hay`. */
  lemma AbsentCharNotContained(hay: string, needle: string, k: nat)
    requires k < |needle| && needle[k] !in hay
    ensures !Contains(hay, needle)
  {
    forall i: nat | i <= |hay| ensures !OccursAt(hay, needle, i) {
      if i + |needle| <= |hay| {
        assert hay[i..i + |needle|][k] == hay[i + k];
      }
    }
  }

  /** A needle found at a known position is contained. */
  lemma ContainedAt(hay: string, needle: string, i: nat)
    requires OccursAt(hay, needle, i)
    ensures Contains(hay, needle)
  {
  }

  /**
   * Python's `s.replace(p, '')`: scans left to right and drops every
   * non-overlapping occurrence of `p`.
   */
  function Remove(s: string, p: string): (r: string)
    requires |p| > 0
    ensures |r| <= |s|
    ensures forall c | c in r :: c in s
    decreases |s|
  {
    if |s| < |p| then s
    else if s[..|p|] == p then Remove(s[|p|..], p)
    else [s[0]] + Remove(s[1..], p)
  }

  /** Removing a one-character pattern leaves no such character behind. */
  lemma {:induction false} RemoveCharGone(s: string, p: string)
    requires |p| == 1
    ensures p[0] !in Remove(s, p)
    decreases |s|
  {
    if |s| < |p| {
    } else if s[..|p|] == p {
      RemoveCharGone(s[|p|..], p);
    } else {
      assert s[..1] == [s[0]];
      RemoveCharGone(s[1..], p);
    }
  }

  /** Text whose characters differ from the first character of `p` is kept as it is. */
  lemma {:induction false} RemoveKeepsFreePrefix(a: string, b: string, p: string)
    requires |p| > 0 && p[0] !in a
    ensures Remove(a + b, p) == a + Remove(b, p)
    decreases |a|
  {
    if a != [] {
      var s := a + b;
      assert s[0] == a[0] != p[0];
      if |s| >= |p| {
        assert s[..|p|][0] != p[0];
        assert s[1..] == a[1..] + b;
        RemoveKeepsFreePrefix(a[1..], b, p);
        assert a == [a[0]] + a[1..];
      }
    } else {
      assert a + b == b;
    }
  }

  /** An occurrence of `p` at the front is dropped. */
  lemma RemoveLeading(p: string, b: string)
    requires |p| > 0
    ensures Remove(p + b, p) == Remove(b, p)
  {
    assert (p + b)[..|p|] == p;
    assert (p + b)[|p|..] == b;
  }

  /** Text that never starts an occurrence of `p` is unchanged. */
  lemma RemoveAbsent(s: string, p: string)
    requires |p| > 0 && p[0] !in s
    ensures Remove(s, p) == s
  {
    RemoveKeepsFreePrefix(s, [], p);
    assert s + [] == s;
    assert Remove([], p) == [];
  }

  /** Removing a one-character pattern works piece by piece. */
  lemma {:induction false} RemoveCharConcat(a: string, b: string, p: string)
    requires |p| == 1
    ensures Remove(a + b, p) == Remove(a, p) + Remove(b, p)
    decreases |a|
  {
    if a == [] {
      assert a + b == b;
    } else {
      var s := a + b;
      assert s[..1] == a[..1] && s[1..] == a[1..] + b;
      RemoveCharConcat(a[1..], b, p);
    }
  }
}
