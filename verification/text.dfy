/**
 * The string operations the gateway borrows from Python: `str.strip()` with
 * no argument, `str.split(sep)` with a one-character separator, and the
 * prefix slice `s[:n]`.
 */
module Text {

  /** The characters Python's `str.isspace()` accepts, which `str.strip()` removes. */
  predicate IsSpace(c: char)
  {
    c == ' ' || ('\t' <= c <= '\r') || ('\U{1C}' <= c <= '\U{1F}') ||
    c == '\U{85}' || c == '\U{A0}' || c == '\U{1680}' ||
    ('\U{2000}' <= c <= '\U{200A}') || c == '\U{2028}' || c == '\U{2029}' ||
    c == '\U{202F}' || c == '\U{205F}' || c == '\U{3000}'
  }

  predicate AllSpace(s: string)
  {
    forall i :: 0 <= i < |s| ==> IsSpace(s[i])
  }

  /** Neither end of `s` is whitespace. */
  predicate Trimmed(s: string)
  {
    s == [] || (!IsSpace(s[0]) && !IsSpace(s[|s| - 1]))
  }

  /** `s` without its leading whitespace; StripLeadingSpec says what it keeps. */
  function StripLeading(s: string): string
  {
    if s != [] && IsSpace(s[0]) then StripLeading(s[1..]) else s
  }

  /** StripLeading keeps a suffix of `s` that does not start with whitespace, and drops only whitespace. */
  lemma {:induction false} StripLeadingSpec(s: string)
    ensures var r := StripLeading(s);
      |r| <= |s| && r == s[|s| - |r|..] && AllSpace(s[..|s| - |r|]) && (r == [] || !IsSpace(r[0]))
  {
    if s != [] && IsSpace(s[0]) {
      StripLeadingSpec(s[1..]);
      var r := StripLeading(s[1..]);
      assert s[..|s| - |r|] == [s[0]] + s[1..][..|s| - 1 - |r|];
    } else {
      assert s[..0] == [];
    }
  }

  /** `s` without its trailing whitespace; StripTrailingSpec says what it keeps. */
  function StripTrailing(s: string): string
  {
    if s != [] && IsSpace(s[|s| - 1]) then StripTrailing(s[..|s| - 1]) else s
  }

  /** StripTrailing keeps a prefix of `s` that does not end with whitespace, and drops only whitespace. */
  lemma {:induction false} StripTrailingSpec(s: string)
    ensures var r := StripTrailing(s);
      |r| <= |s| && r == s[..|r|] && AllSpace(s[|r|..]) && (r == [] || !IsSpace(r[|r| - 1]))
  {
    if s != [] && IsSpace(s[|s| - 1]) {
      StripTrailingSpec(s[..|s| - 1]);
      var r := StripTrailing(s[..|s| - 1]);
      assert s[|r|..] == s[..|s| - 1][|r|..] + [s[|s| - 1]];
    } else {
      assert s[|s|..] == [];
    }
  }

  /**
   * Python's `s.strip()`. The result has whitespace at neither end and is
   * empty exactly when `s` is all whitespace; StripSlice says it is a slice
   * of `s` and StripExact that it removes exactly the outer whitespace.
   */
  function Strip(s: string): (r: string)
    ensures Trimmed(r)
    ensures r == [] <==> AllSpace(s)
  {
    var t := StripLeading(s);
    var r := StripTrailing(t);
    StripLeadingSpec(s);
    StripTrailingSpec(t);
    assert r != [] ==> r[0] == t[0];
    StripEmpty(s);
    r
  }

  /** The stripped text is a contiguous slice of the original with only whitespace cut from either side. */
  lemma StripSlice(s: string)
    ensures exists i, j :: 0 <= i <= j <= |s| && Strip(s) == s[i..j] && AllSpace(s[..i]) && AllSpace(s[j..])
  {
    var t := StripLeading(s);
    var r := StripTrailing(t);
    StripLeadingSpec(s);
    StripTrailingSpec(t);
    var i := |s| - |t|;
    var j := i + |r|;
    assert t == s[i..];
    assert r == s[i..j];
    assert s[j..] == t[|r|..];
  }

  /** Stripping adds no character: what `s` lacks, its stripped form lacks too. */
  lemma StripKeepsOut(s: string, c: char)
    requires c !in s
    ensures c !in Strip(s)
  {
    StripSlice(s);
  }

  /** Leading whitespace in front of text that does not start with whitespace is exactly what StripLeading drops. */
  lemma {:induction false} StripLeadingOf(lead: string, rest: string)
    requires AllSpace(lead) && (rest == [] || !IsSpace(rest[0]))
    ensures StripLeading(lead + rest) == rest
  {
    if lead == [] {
      assert lead + rest == rest;
    } else {
      assert (lead + rest)[1..] == lead[1..] + rest;
      StripLeadingOf(lead[1..], rest);
    }
  }

  /** Trailing whitespace after text that does not end with whitespace is exactly what StripTrailing drops. */
  lemma {:induction false} StripTrailingOf(body: string, trail: string)
    requires (body == [] || !IsSpace(body[|body| - 1])) && AllSpace(trail)
    ensures StripTrailing(body + trail) == body
  {
    if trail == [] {
      assert body + trail == body;
    } else {
      var shorter := trail[..|trail| - 1];
      assert (body + trail)[..|body + trail| - 1] == body + shorter;
      StripTrailingOf(body, shorter);
    }
  }

  /** A string all of whose characters are whitespace strips to nothing, and nothing else does. */
  lemma StripEmpty(s: string)
    ensures StripTrailing(StripLeading(s)) == [] <==> AllSpace(s)
  {
    var t := StripLeading(s);
    StripLeadingSpec(s);
    StripTrailingSpec(t);
    if AllSpace(s) {
      StripLeadingOf(s, []);
      assert s + [] == s;
    }
    if StripTrailing(t) == [] {
      assert AllSpace(t[0..]) && t[0..] == t;
      assert t == [];
      assert s[..|s|] == s;
    }
  }

  /** Removing whitespace `lead` and `trail` around a trimmed `mid` gives `mid` back, whatever `mid` is. */
  lemma StripExact(lead: string, mid: string, trail: string)
    requires AllSpace(lead) && AllSpace(trail) && Trimmed(mid)
    ensures Strip(lead + mid + trail) == mid
  {
    if mid == [] {
      var s := lead + mid + trail;
      forall i | 0 <= i < |s|
        ensures IsSpace(s[i])
      {
        if i < |lead| { assert s[i] == lead[i]; } else { assert s[i] == trail[i - |lead|]; }
      }
    } else {
      assert lead + mid + trail == lead + (mid + trail);
      StripLeadingOf(lead, mid + trail);
      StripTrailingOf(mid, trail);
    }
  }

  /** Stripping twice is stripping once. */
  lemma StripIdempotent(s: string)
    ensures Strip(Strip(s)) == Strip(s)
  {
    StripExact([], Strip(s), []);
    assert [] + Strip(s) + [] == Strip(s);
  }

  /** Python's `s.split(sep)`: the pieces between occurrences of `sep`, empty ones included. */
  function Split(s: string, sep: char): (parts: seq<string>)
    ensures |parts| >= 1
    ensures forall p :: p in parts ==> sep !in p
    ensures Join(parts, sep) == s
  {
    if s == [] then
      [[]]
    else
      var rest := Split(s[1..], sep);
      if s[0] == sep then
        var parts := [[]] + rest;
        assert parts[1..] == rest;
        parts
      else
        var parts := [[s[0]] + rest[0]] + rest[1..];
        assert |rest| > 1 ==> Join(rest, sep) == rest[0] + [sep] + Join(rest[1..], sep);
        assert parts[1..] == rest[1..];
        parts
  }

  /** The inverse of Split: the parts with `sep` between them (Python's `sep.join` on a non-empty list). */
  function Join(parts: seq<string>, sep: char): string
    requires |parts| >= 1
  {
    if |parts| == 1 then parts[0] else parts[0] + [sep] + Join(parts[1..], sep)
  }

  /** Splitting a separator-free piece followed by more text extends the first part. */
  lemma {:induction false} SplitPrefix(p: string, rest: string, sep: char)
    requires sep !in p
    ensures Split(p + rest, sep) == [p + Split(rest, sep)[0]] + Split(rest, sep)[1..]
  {
    if p != [] {
      assert (p + rest)[1..] == p[1..] + rest;
      SplitPrefix(p[1..], rest, sep);
      assert [p[0]] + (p[1..] + Split(rest, sep)[0]) == p + Split(rest, sep)[0];
    } else {
      var parts := Split(rest, sep);
      assert p + rest == rest && p + parts[0] == parts[0];
      assert [parts[0]] + parts[1..] == parts;
    }
  }

  /** Splitting what Join produced from separator-free parts gives those parts back. */
  lemma {:induction false} SplitJoin(parts: seq<string>, sep: char)
    requires |parts| >= 1
    requires forall p :: p in parts ==> sep !in p
    ensures Split(Join(parts, sep), sep) == parts
  {
    if |parts| == 1 {
      SplitPrefix(parts[0], [], sep);
      assert parts[0] + [] == parts[0];
    } else {
      var tail := Join(parts[1..], sep);
      SplitJoin(parts[1..], sep);
      assert parts[0] + [sep] + tail == parts[0] + ([sep] + tail);
      SplitPrefix(parts[0], [sep] + tail, sep);
      assert ([sep] + tail)[1..] == tail;
      assert Split([sep] + tail, sep) == [[]] + parts[1..];
      assert parts[0] + [] == parts[0];
    }
  }

  /** Python's `s[:n]` for n >= 0: the first `n` characters, or all of `s` when it is shorter. */
  function Take(s: string, n: nat): (r: string)
    ensures |r| <= n && r <= s
    ensures |s| <= n ==> r == s
    ensures |s| >= n ==> |r| == n
  {
    if |s| <= n then s else s[..n]
  }

  /** A shorter excerpt of a string is a prefix of a longer one. */
  lemma TakeMonotone(s: string, m: nat, n: nat)
    requires m <= n
    ensures Take(s, m) <= Take(s, n)
  {
  }
}
