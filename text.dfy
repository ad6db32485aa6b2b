/**
 * The Python string operations the conversation runners rely on, on `seq<char>`:
 * `startswith`, `in`, `replace`, `split(sep)[-1]` and `strip()`. `Count` (Python's
 * `count`) is used by no runner; it only serves the laws `ReplaceLength` and
 * `CountZeroIffAbsent`.
 */
module Text {

  /** `s.startswith(p)`. */
  predicate StartsWith(s: string, p: string) {
    |p| <= |s| && s[..|p|] == p
  }

  /** `t in s`: some slice of `s` equals `t`; true for the empty `t`. */
  predicate Contains(s: string, t: string)
    decreases |s|
  {
    StartsWith(s, t) || (|s| > 0 && Contains(s[1..], t))
  }

  /**
   * `s.replace(t, v)`: scans left to right and replaces each non-overlapping
   * occurrence of `t`; an inserted `v` is never scanned again. For the empty
   * `t`, `v` goes before every character and at the end, as in Python.
   */
  function ReplaceAll(s: string, t: string, v: string): string
    decreases |s|
  {
    if |t| == 0 then
      if |s| == 0 then v else v + [s[0]] + ReplaceAll(s[1..], t, v)
    else if |s| < |t| then s
    else if s[..|t|] == t then v + ReplaceAll(s[|t|..], t, v)
    else [s[0]] + ReplaceAll(s[1..], t, v)
  }

  /** `s.count(t)` for a non-empty `t`: non-overlapping occurrences, left to right. */
  function Count(s: string, t: string): nat
    requires |t| > 0
    decreases |s|
  {
    if |s| < |t| then 0
    else if s[..|t|] == t then 1 + Count(s[|t|..], t)
    else Count(s[1..], t)
  }

  /** An occurrence needs room. */
  lemma {:induction false} ContainsFits(s: string, t: string)
    requires Contains(s, t)
    ensures |t| <= |s|
    decreases |s|
  {
    if !StartsWith(s, t) {
      ContainsFits(s[1..], t);
    }
  }

  /** `count` finds an occurrence exactly when `in` does. */
  lemma {:induction false} CountZeroIffAbsent(s: string, t: string)
    requires |t| > 0
    ensures Count(s, t) == 0 <==> !Contains(s, t)
    decreases |s|
  {
    if |s| < |t| {
      if Contains(s, t) {
        ContainsFits(s, t);
      }
    } else if s[..|t|] != t {
      CountZeroIffAbsent(s[1..], t);
    }
  }

  /** Replacing a tag the text does not contain changes nothing. */
  lemma {:induction false} ReplaceAbsent(s: string, t: string, v: string)
    requires !Contains(s, t)
    ensures ReplaceAll(s, t, v) == s
    decreases |s|
  {
    if |s| >= |t| {
      assert s[..|t|] != t;
      ReplaceAbsent(s[1..], t, v);
    }
  }

  /** Each replaced occurrence trades `|t|` characters for `|v|`. */
  lemma {:induction false} ReplaceLength(s: string, t: string, v: string)
    requires |t| > 0
    ensures |ReplaceAll(s, t, v)| == |s| + Count(s, t) * (|v| - |t|)
    decreases |s|
  {
    if |s| < |t| {
    } else if s[..|t|] == t {
      ReplaceLength(s[|t|..], t, v);
      MulSucc(Count(s[|t|..], t), |v| - |t|);
    } else {
      ReplaceLength(s[1..], t, v);
    }
  }

  lemma MulSucc(c: int, d: int)
    ensures (c + 1) * d == c * d + d
  {
  }

  /** A text without the tag's first character cannot contain the tag. */
  lemma {:induction false} AbsentHead(s: string, t: string)
    requires |t| > 0 && t[0] !in s
    ensures !Contains(s, t)
    decreases |s|
  {
    if |s| > 0 {
      AbsentHead(s[1..], t);
    }
  }

  /** A tag that does not start the text, and whose first character is absent from the rest, does not occur. */
  lemma AbsentAfterHead(s: string, t: string)
    requires |t| > 0 && !StartsWith(s, t) && (|s| == 0 || t[0] !in s[1..])
    ensures !Contains(s, t)
  {
    if |s| > 0 {
      AbsentHead(s[1..], t);
    }
  }

  /** No occurrence can start inside a prefix that lacks the tag's first character. */
  lemma {:induction false} ReplaceAfterPrefix(p: string, s: string, t: string, v: string)
    requires |t| > 0 && t[0] !in p
    ensures ReplaceAll(p + s, t, v) == p + ReplaceAll(s, t, v)
    decreases |p|
  {
    if |p| > 0 {
      var ps := p + s;
      ReplaceAfterPrefix(p[1..], s, t, v);
      assert ps[1..] == p[1..] + s;
      if |ps| >= |t| {
        assert ps[..|t|][0] == p[0] != t[0];
        calc {
          ReplaceAll(ps, t, v);
          [ps[0]] + ReplaceAll(ps[1..], t, v);
          [p[0]] + (p[1..] + ReplaceAll(s, t, v));
          { assert [p[0]] + p[1..] == p; }
          p + ReplaceAll(s, t, v);
        }
      } else {
        assert ReplaceAll(s, t, v) == s;
      }
    } else {
      assert p + s == s;
    }
  }

  /** The whole text being the tag, it becomes the value, never re-scanned. */
  lemma ReplaceWhole(t: string, v: string)
    requires |t| > 0
    ensures ReplaceAll(t, t, v) == v
  {
    assert t[|t|..] == [];
  }

  /**
   * Substitution is a single pass, so a second pass is not a no-op in general:
   * `"{{X}}"` with `"{X}"` replaced by `"X"` becomes `"{X}"`, which a second pass
   * turns into `"X"`, although the value `"X"` contains no tag.
   */
  lemma SecondPassNotIdempotent()
    ensures ReplaceAll("{{X}}", "{X}", "X") == "{X}"
    ensures ReplaceAll("{X}", "{X}", "X") == "X"
  {
    var s: string := "{{X}}";
    assert s[..3][1] == '{' != "{X}"[1];
    assert s[1..][..3] == "{X}";
    assert s[1..][3..] == "}";
    assert ReplaceAll("}", "{X}", "X") == "}";
    assert ReplaceAll(s[1..], "{X}", "X") == "X}";
    var u: string := "{X}";
    assert u[..3] == "{X}";
    assert u[3..] == [];
  }

  /**
   * `s.split(sep)[-1]`: the part of `s` after its last `sep`, or all of `s`
   * when it has none.
   */
  function LastSegment(s: string, sep: char): (r: string)
    ensures sep !in r
    ensures |r| <= |s| && r == s[|s| - |r|..]
    ensures |r| < |s| ==> s[|s| - |r| - 1] == sep
  {
    if |s| == 0 || s[|s| - 1] == sep then []
    else LastSegment(s[..|s| - 1], sep) + [s[|s| - 1]]
  }

  /** The characters Python's `str.isspace` accepts. */
  predicate IsSpace(c: char) {
    || c == ' '
    || '\t' <= c <= '\r'
    || '\U{1C}' <= c <= '\U{1F}'
    || c == '\U{85}' || c == '\U{A0}' || c == '\U{1680}'
    || '\U{2000}' <= c <= '\U{200A}'
    || c == '\U{2028}' || c == '\U{2029}' || c == '\U{202F}' || c == '\U{205F}'
    || c == '\U{3000}'
  }

  /** `s.lstrip()`: the suffix of `s` after its leading whitespace. */
  function StripStart(s: string): string {
    if |s| == 0 || !IsSpace(s[0]) then s else StripStart(s[1..])
  }

  /** `lstrip()` drops exactly the leading whitespace: a suffix, all space before it, none at its head. */
  lemma {:induction false} StripStartSpec(s: string)
    ensures var r := StripStart(s);
      && |r| <= |s| && r == s[|s| - |r|..]
      && (forall i :: 0 <= i < |s| - |r| ==> IsSpace(s[i]))
      && (r == [] || !IsSpace(r[0]))
  {
    if |s| > 0 && IsSpace(s[0]) {
      StripStartSpec(s[1..]);
    }
  }

  /** `s.rstrip()`: the prefix of `s` before its trailing whitespace. */
  function StripEnd(s: string): string {
    if |s| == 0 || !IsSpace(s[|s| - 1]) then s else StripEnd(s[..|s| - 1])
  }

  /** `rstrip()` drops exactly the trailing whitespace: a prefix, all space after it, none at its end. */
  lemma {:induction false} StripEndSpec(s: string)
    ensures var r := StripEnd(s);
      && |r| <= |s| && r == s[..|r|]
      && (forall i :: |r| <= i < |s| ==> IsSpace(s[i]))
      && (r == [] || !IsSpace(r[|r| - 1]))
  {
    if |s| > 0 && IsSpace(s[|s| - 1]) {
      StripEndSpec(s[..|s| - 1]);
    }
  }

  /** `s.strip()`. */
  function Strip(s: string): string {
    StripEnd(StripStart(s))
  }

  /** `StripStart` keeps a text that already starts with a non-space. */
  lemma StripStartKeeps(s: string)
    requires s == [] || !IsSpace(s[0])
    ensures StripStart(s) == s
  {
  }

  /** Stripping twice is stripping once; the result is a slice of the input with no outer whitespace. */
  lemma StripIdempotent(s: string)
    ensures Strip(Strip(s)) == Strip(s)
    ensures var r := Strip(s); r == [] || (!IsSpace(r[0]) && !IsSpace(r[|r| - 1]))
  {
    var a := StripStart(s);
    var r := StripEnd(a);
    StripStartSpec(s);
    StripEndSpec(a);
    assert r == [] || r[0] == a[0];
    StripStartKeeps(r);
    StripEndSpec(r);
  }
}
