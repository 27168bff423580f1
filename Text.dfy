/** String operations of Python's `str` that the agent relies on: `strip()`,
    `lower()` and `sep.join(parts)`, with `string` as a sequence of characters. */
module Text {

  /** The characters for which Python's `str.isspace()` holds; `str.strip()`
      with no argument removes exactly these from both ends. */
  predicate IsSpace(c: char)
  {
    ('\t' <= c <= '\r') || ('\U{1c}' <= c <= ' ') || c == '\U{85}' || c == '\U{a0}' ||
    c == '\U{1680}' || ('\U{2000}' <= c <= '\U{200a}') || c == '\U{2028}' || c == '\U{2029}' ||
    c == '\U{202f}' || c == '\U{205f}' || c == '\U{3000}'
  }

  /** Python `s.lstrip()`: `s` without its leading whitespace. */
  function TrimStart(s: string): string
  {
    if |s| > 0 && IsSpace(s[0]) then TrimStart(s[1..]) else s
  }

  /** Python `s.rstrip()`: `s` without its trailing whitespace. */
  function TrimEnd(s: string): string
  {
    if |s| > 0 && IsSpace(s[|s| - 1]) then TrimEnd(s[..|s| - 1]) else s
  }

  /** Python `s.strip()`: `s` without whitespace at either end. */
  function Strip(s: string): string
  {
    TrimEnd(TrimStart(s))
  }

  /** `TrimStart` keeps a suffix, drops only whitespace, and leaves no
      whitespace in front. */
  lemma {:induction false} TrimStartSpec(s: string)
    ensures |TrimStart(s)| <= |s| && TrimStart(s) == s[|s| - |TrimStart(s)|..]
    ensures forall k :: 0 <= k < |s| - |TrimStart(s)| ==> IsSpace(s[k])
    ensures TrimStart(s) == [] || !IsSpace(TrimStart(s)[0])
  {
    if |s| > 0 && IsSpace(s[0]) {
      TrimStartSpec(s[1..]);
      forall k | 1 <= k < |s| - |TrimStart(s)| ensures IsSpace(s[k]) {
        assert s[k] == s[1..][k - 1];
      }
    }
  }

  /** `TrimEnd` keeps a prefix, drops only whitespace, and leaves no
      whitespace at the end. */
  lemma {:induction false} TrimEndSpec(s: string)
    ensures |TrimEnd(s)| <= |s| && TrimEnd(s) == s[..|TrimEnd(s)|]
    ensures forall k :: |TrimEnd(s)| <= k < |s| ==> IsSpace(s[k])
    ensures TrimEnd(s) == [] || !IsSpace(TrimEnd(s)[|TrimEnd(s)| - 1])
  {
    if |s| > 0 && IsSpace(s[|s| - 1]) {
      TrimEndSpec(s[..|s| - 1]);
      forall k | |TrimEnd(s)| <= k < |s| - 1 ensures IsSpace(s[k]) {
        assert s[k] == s[..|s| - 1][k];
      }
    }
  }

  /** What `strip()` keeps: the slice of `s` that starts after its leading
      whitespace (`i` characters), is followed only by whitespace, and neither
      starts nor ends with whitespace. */
  lemma StripSpec(s: string)
    ensures var i, r := |s| - |TrimStart(s)|, Strip(s);
            0 <= i && i + |r| <= |s| && r == s[i..i + |r|] &&
            (forall k :: 0 <= k < i ==> IsSpace(s[k])) &&
            (forall k :: i + |r| <= k < |s| ==> IsSpace(s[k])) &&
            (r == [] || (!IsSpace(r[0]) && !IsSpace(r[|r| - 1])))
  {
    var t := TrimStart(s);
    var r := Strip(s);
    var i := |s| - |t|;
    TrimStartSpec(s);
    TrimEndSpec(t);
    assert r == s[i..i + |r|] by {
      assert t == s[i..];
    }
    forall k | i + |r| <= k < |s| ensures IsSpace(s[k]) {
      assert s[k] == t[k - i];
    }
    if r != [] {
      assert r[0] == t[0];
    }
  }

  /** Stripping a string that neither starts nor ends with whitespace
      leaves it as it is. */
  lemma StripUnpadded(s: string)
    requires s == [] || (!IsSpace(s[0]) && !IsSpace(s[|s| - 1]))
    ensures Strip(s) == s
  {
  }

  /** Stripping twice is stripping once. */
  lemma StripIdempotent(s: string)
    ensures Strip(Strip(s)) == Strip(s)
  {
    StripSpec(s);
    StripUnpadded(Strip(s));
  }

  /** Python `c.lower()` on the ASCII letters; every other character is
      left as it is. */
  function LowerChar(c: char): char
  {
    if 'A' <= c <= 'Z' then (c as int + 32) as char else c
  }

  /** Python `s.lower()`, character by character. */
  function Lower(s: string): (r: string)
    ensures |r| == |s|
    ensures forall k :: 0 <= k < |s| ==> r[k] == LowerChar(s[k])
  {
    if s == [] then [] else [LowerChar(s[0])] + Lower(s[1..])
  }

  /** Python `sep.join(parts)`: the parts in order with `sep` between each
      two neighbours; no parts give the empty string. */
  function Join(sep: string, parts: seq<string>): string
  {
    if |parts| == 0 then ""
    else if |parts| == 1 then parts[0]
    else parts[0] + sep + Join(sep, parts[1..])
  }

  /** `t` occurs in `s` starting at position `i`. */
  ghost predicate OccursAt(t: string, s: string, i: int)
  {
    0 <= i && i + |t| <= |s| && s[i..i + |t|] == t
  }

  /** The position at which part `k` starts in `Join(sep, parts)`: the lengths
      of the parts before it, each followed by one separator. */
  function Offset(sep: string, parts: seq<string>, k: nat): nat
    requires k <= |parts|
  {
    if k == 0 then 0 else |parts[0]| + |sep| + Offset(sep, parts[1..], k - 1)
  }

  lemma OccursShift(t: string, s: string, i: int, p: string)
    requires OccursAt(t, s, i)
    ensures OccursAt(t, p + s, |p| + i)
  {
  }

  /** An occurrence inside an occurrence is an occurrence. */
  lemma OccursWithin(t: string, s: string, i: int, u: string, j: int)
    requires OccursAt(t, s, i) && OccursAt(s, u, j)
    ensures OccursAt(t, u, j + i)
  {
    forall m | 0 <= m < |t| ensures u[j + i + m] == t[m] {
      assert u[j + i + m] == u[j..j + |s|][i + m];
      assert t[m] == s[i..i + |t|][m];
    }
    assert u[j + i..j + i + |t|] == t;
  }

  /** Both halves of a concatenation occur in it. */
  lemma OccursConcat(a: string, b: string)
    ensures OccursAt(a, a + b, 0)
    ensures OccursAt(b, a + b, |a|)
  {
  }

  /** The layout of a join, which determines it: part `k` stands at
      `Offset(sep, parts, k)`, a separator follows every part but the last,
      and the text ends where the last part ends. */
  lemma {:induction false} JoinLayout(sep: string, parts: seq<string>, k: nat)
    requires k < |parts|
    ensures OccursAt(parts[k], Join(sep, parts), Offset(sep, parts, k))
    ensures k + 1 < |parts| ==> OccursAt(sep, Join(sep, parts), Offset(sep, parts, k) + |parts[k]|)
    ensures k + 1 == |parts| ==> |Join(sep, parts)| == Offset(sep, parts, k) + |parts[k]|
  {
    if |parts| == 1 {
      assert parts[0][0..|parts[0]|] == parts[0];
    } else {
      var rest := Join(sep, parts[1..]);
      assert Join(sep, parts) == (parts[0] + sep) + rest;
      if k == 0 {
        OccursConcat(parts[0], sep);
        OccursConcat(parts[0] + sep, rest);
        OccursWithin(parts[0], parts[0] + sep, 0, Join(sep, parts), 0);
        OccursWithin(sep, parts[0] + sep, |parts[0]|, Join(sep, parts), 0);
      } else {
        JoinLayout(sep, parts[1..], k - 1);
        var o := Offset(sep, parts[1..], k - 1);
        assert parts[1..][k - 1] == parts[k];
        OccursShift(parts[k], rest, o, parts[0] + sep);
        if k + 1 < |parts| {
          OccursShift(sep, rest, o + |parts[k]|, parts[0] + sep);
        }
      }
    }
  }

  /** Offsets grow by one part and one separator from one part to the next. */
  lemma {:induction false} OffsetNext(sep: string, parts: seq<string>, k: nat)
    requires k < |parts|
    ensures Offset(sep, parts, k + 1) == Offset(sep, parts, k) + |parts[k]| + |sep|
  {
    if k > 0 {
      OffsetNext(sep, parts[1..], k - 1);
    }
  }
}
