/** Character classes and the handful of Python `str` operations the statement
    parser relies on: `strip`, `rstrip`, substring search, `split("\n")` and
    `sep.join(...)`, all over `seq<char>`. */
module Text {

  datatype Option<T> = None | Some(value: T)

  /** The ASCII characters that Python's `str.isspace` (and so `str.strip`) and
      the regular-expression class `\s` accept. */
  predicate IsSpace(c: char) {
    c == ' ' || c == '\t' || c == '\n' || c == '\r' || c == '\U{0B}' || c == '\U{0C}'
    || ('\U{1C}' <= c <= '\U{1F}')
  }

  /** The regular-expression class `\d`, restricted to ASCII. */
  predicate IsDigit(c: char) {
    '0' <= c <= '9'
  }

  /** The regular-expression class `[A-Z]`. */
  predicate IsUpper(c: char) {
    'A' <= c <= 'Z'
  }

  /** Python `s.rstrip()`: the longest prefix of `s` that does not end in whitespace. */
  function RStrip(s: string): (r: string)
    ensures |r| <= |s|
    ensures r == [] || !IsSpace(r[|r| - 1])
  {
    if s == [] || !IsSpace(s[|s| - 1]) then s else RStrip(s[..|s| - 1])
  }

  /** `rstrip` keeps a prefix and removes only whitespace. */
  lemma {:induction false} RStripSpec(s: string)
    ensures RStrip(s) <= s
    ensures forall k :: |RStrip(s)| <= k < |s| ==> IsSpace(s[k])
  {
    if s != [] && IsSpace(s[|s| - 1]) {
      RStripSpec(s[..|s| - 1]);
    }
  }

  /** Python `s.lstrip()`: the longest suffix of `s` that does not start with whitespace. */
  function LStrip(s: string): (r: string)
    ensures |r| <= |s|
    ensures r == [] || !IsSpace(r[0])
  {
    if s == [] || !IsSpace(s[0]) then s else LStrip(s[1..])
  }

  /** `lstrip` keeps a suffix and removes only whitespace. */
  lemma {:induction false} LStripSpec(s: string)
    ensures LStrip(s) == s[|s| - |LStrip(s)|..]
    ensures forall k :: 0 <= k < |s| - |LStrip(s)| ==> IsSpace(s[k])
  {
    if s != [] && IsSpace(s[0]) {
      LStripSpec(s[1..]);
      assert forall k :: 1 <= k < |s| - |LStrip(s)| ==> s[k] == s[1..][k - 1];
    }
  }

  /** Python `s.strip()`: `s` with leading and trailing whitespace removed. */
  function Strip(s: string): string {
    LStrip(RStrip(s))
  }

  /** `r` occupies `s[a..a + |r|]` and everything around it in `s` is whitespace. */
  ghost predicate StrippedAt(s: string, r: string, a: int) {
    0 <= a && a + |r| <= |s| && r == s[a..a + |r|]
    && (forall k :: 0 <= k < a ==> IsSpace(s[k]))
    && (forall k :: a + |r| <= k < |s| ==> IsSpace(s[k]))
  }

  /** The stripped text is a slice of the original with only whitespace around it. */
  lemma StripIsSlice(s: string)
    ensures StrippedAt(s, Strip(s), |RStrip(s)| - |Strip(s)|)
  {
    var t := RStrip(s);
    var r := LStrip(t);
    var a := |t| - |r|;
    RStripSpec(s);
    LStripSpec(t);
    assert t == s[..|t|];
    assert r == s[a..a + |r|];
  }

  /** A non-empty stripped text starts and ends with a non-whitespace character. */
  lemma StripEnds(s: string)
    ensures Strip(s) == [] || (!IsSpace(Strip(s)[0]) && !IsSpace(Strip(s)[|Strip(s)| - 1]))
  {
    LStripSpec(RStrip(s));
  }

  /** `sub` occurs in `s` starting at index `k`. */
  predicate OccursAt(s: string, sub: string, k: nat) {
    k <= |s| && sub <= s[k..]
  }

  /** Python `sub in s` for strings. */
  predicate Contains(s: string, sub: string) {
    exists k :: 0 <= k <= |s| && OccursAt(s, sub, k)
  }

  /** Python `text.split("\n")`: always at least one piece, none holding a newline. */
  function Split(text: string): (r: seq<string>)
    ensures |r| >= 1
    ensures forall k :: 0 <= k < |r| ==> '\n' !in r[k]
  {
    if text == [] then [[]]
    else
      var rest := Split(text[1..]);
      if text[0] == '\n' then [[]] + rest
      else [[text[0]] + rest[0]] + rest[1..]
  }

  /** Python `sep.join(parts)`. */
  function JoinWith(sep: string, parts: seq<string>): string {
    if |parts| == 0 then []
    else if |parts| == 1 then parts[0]
    else parts[0] + sep + JoinWith(sep, parts[1..])
  }

  /** Joining two non-empty runs of parts: the joined runs with one
      separator between them. */
  lemma {:induction false} JoinWithAppend(sep: string, xs: seq<string>, ys: seq<string>)
    requires xs != [] && ys != []
    ensures JoinWith(sep, xs + ys) == JoinWith(sep, xs) + sep + JoinWith(sep, ys)
    decreases |xs|
  {
    if |xs| == 1 {
      assert (xs + ys)[1..] == ys;
    } else {
      JoinWithAppend(sep, xs[1..], ys);
      assert (xs + ys)[1..] == xs[1..] + ys;
    }
  }

  /** The joined text starts with the first part and ends with the last. */
  lemma {:induction false} JoinWithEnds(sep: string, parts: seq<string>)
    requires |parts| >= 1
    ensures parts[0] <= JoinWith(sep, parts)
    ensures var j := JoinWith(sep, parts);
            var last := parts[|parts| - 1];
            |last| <= |j| && j[|j| - |last|..] == last
  {
    if |parts| > 1 {
      JoinWithEnds(sep, parts[1..]);
    }
  }

  /** Removing trailing whitespace a second time changes nothing. */
  lemma RStripIdempotent(s: string)
    ensures RStrip(RStrip(s)) == RStrip(s)
  {
  }

  /** Whatever is cut off by `rstrip` is whitespace, so stripping both ends gives
      the same text whether or not `rstrip` was applied first. */
  lemma {:induction false} StripAfterRStrip(s: string)
    ensures Strip(RStrip(s)) == Strip(s)
  {
    RStripIdempotent(s);
  }

  /** A prefix of `s` contains only substrings that `s` itself contains. */
  lemma ContainsInPrefix(p: string, s: string, sub: string)
    requires p <= s
    requires Contains(p, sub)
    ensures Contains(s, sub)
  {
    var k :| 0 <= k <= |p| && OccursAt(p, sub, k);
    assert s[k..][..|sub|] == p[k..][..|sub|];
    assert OccursAt(s, sub, k);
  }

  /** A text lacking one of the characters of `sub` does not contain `sub`. */
  lemma MissingCharExcludes(s: string, sub: string, c: char)
    requires c in sub && c !in s
    ensures !Contains(s, sub)
  {
  }

  /** A string that starts with something other than whitespace loses nothing
      at the front when stripped. */
  lemma {:induction false} StripOfSolidStart(s: string)
    requires s != [] && !IsSpace(s[0])
    ensures Strip(s) == RStrip(s)
  {
    RStripSpec(s);
  }

  /** Text that ends with something other than whitespace does not strip to
      nothing. */
  lemma StripOfSolidEnd(s: string)
    requires s != [] && !IsSpace(s[|s| - 1])
    ensures Strip(s) != []
  {
    StripIsSlice(s);
  }

  /** Text made only of whitespace strips to nothing. */
  lemma StripOfBlank(s: string)
    requires forall k :: 0 <= k < |s| ==> IsSpace(s[k])
    ensures Strip(s) == []
  {
    StripIsSlice(s);
  }

  /** Splitting at the first newline. */
  lemma {:induction false} SplitAtNewline(a: string, b: string)
    requires '\n' !in a
    ensures Split(a + "\n" + b) == [a] + Split(b)
  {
    if a == [] {
      assert (a + "\n" + b)[1..] == b;
    } else {
      assert (a + "\n" + b)[1..] == a[1..] + "\n" + b;
      SplitAtNewline(a[1..], b);
      assert [a[0]] + a[1..] == a;
    }
  }

  /** Splitting two texts joined by a newline gives the pieces of the first,
      then the pieces of the second. */
  lemma {:induction false} SplitAppend(a: string, b: string)
    ensures Split(a + "\n" + b) == Split(a) + Split(b)
  {
    if a == [] {
      assert (a + "\n" + b)[1..] == b;
    } else {
      assert (a + "\n" + b)[1..] == a[1..] + "\n" + b;
      SplitAppend(a[1..], b);
    }
  }

  /** Splitting a string without newlines yields that string alone. */
  lemma {:induction false} SplitSingle(a: string)
    requires '\n' !in a
    ensures Split(a) == [a]
  {
    if a != [] {
      SplitSingle(a[1..]);
      assert [a[0]] + a[1..] == a;
    }
  }

  /** `split("\n")` undoes `"\n".join(...)` on newline-free lines. */
  lemma {:induction false} SplitJoin(parts: seq<string>)
    requires |parts| >= 1
    requires forall k :: 0 <= k < |parts| ==> '\n' !in parts[k]
    ensures Split(JoinWith("\n", parts)) == parts
  {
    if |parts| == 1 {
      SplitSingle(parts[0]);
    } else {
      SplitJoin(parts[1..]);
      SplitAtNewline(parts[0], JoinWith("\n", parts[1..]));
      assert [parts[0]] + parts[1..] == parts;
    }
  }
}
