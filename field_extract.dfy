/** `extract_field(name, line)`: the value after `name:` in a line, found by
    the regular expression `name:\s+(.+)` and stripped. The search is written
    out as the backtracking matcher performs it. */
module FieldExtract {
  import opened Text

  /** Length of the whitespace run that starts at `q`. */
  function SpaceRun(s: string, q: nat): (n: nat)
    requires q <= |s|
    ensures q + n <= |s|
    ensures q + n == |s| || !IsSpace(s[q + n])
    decreases |s| - q
  {
    if q < |s| && IsSpace(s[q]) then 1 + SpaceRun(s, q + 1) else 0
  }

  /** The run is made of whitespace. */
  lemma {:induction false} SpaceRunSpec(s: string, q: nat)
    requires q <= |s|
    ensures forall k :: q <= k < q + SpaceRun(s, q) ==> IsSpace(s[k])
    decreases |s| - q
  {
    if q < |s| && IsSpace(s[q]) {
      SpaceRunSpec(s, q + 1);
    }
  }

  /** Index of the first newline at or after `k`, or `|s|` when there is none:
      where a greedy `.+` starting at `k` stops. */
  function LineEnd(s: string, k: nat): (e: nat)
    requires k <= |s|
    ensures k <= e <= |s|
    ensures e == |s| || s[e] == '\n'
    decreases |s| - k
  {
    if k == |s| || s[k] == '\n' then k else LineEnd(s, k + 1)
  }

  /** No newline comes before the line end. */
  lemma {:induction false} LineEndSpec(s: string, k: nat)
    requires k <= |s|
    ensures forall j :: k <= j < LineEnd(s, k) ==> s[j] != '\n'
    decreases |s| - k
  {
    if k < |s| && s[k] != '\n' {
      LineEndSpec(s, k + 1);
    }
  }

  /** How many characters `\s+` keeps when it first takes the `n` whitespace
      characters after `q` and then gives them back one at a time until `.+`
      can match: the largest `w` in `1..n` with a non-newline at `q + w`. */
  function SpacesKept(s: string, q: nat, n: nat): (w: nat)
    requires q + n <= |s|
    ensures w <= n
    ensures w > 0 ==> q + w < |s| && s[q + w] != '\n'
    decreases n
  {
    if n == 0 then 0
    else if q + n < |s| && s[q + n] != '\n' then n
    else SpacesKept(s, q, n - 1)
  }

  /** Every position the backtracking gave up has no character `.` can match. */
  lemma {:induction false} SpacesKeptSpec(s: string, q: nat, n: nat)
    requires q + n <= |s|
    ensures forall j :: q + SpacesKept(s, q, n) < j <= q + n ==> j == |s| || s[j] == '\n'
    decreases n
  {
    if n > 0 && !(q + n < |s| && s[q + n] != '\n') {
      SpacesKeptSpec(s, q, n - 1);
    }
  }

  /** The captured group of `name:\s+(.+)` when the match starts at `p`. */
  function GroupAt(s: string, name: string, p: nat): Option<string>
    requires p <= |s|
  {
    var key := name + ":";
    if !(key <= s[p..]) then None
    else
      var q := p + |key|;
      var w := SpacesKept(s, q, SpaceRun(s, q));
      if w == 0 then None else Some(s[q + w..LineEnd(s, q + w)])
  }

  /** `re.search`: the group of the leftmost match at or after `p`. */
  function SearchFrom(s: string, name: string, p: nat): Option<string>
    requires p <= |s|
    decreases |s| - p
  {
    match GroupAt(s, name, p)
    case Some(g) => Some(g)
    case None => if p == |s| then None else SearchFrom(s, name, p + 1)
  }

  /** `extract_field`: the stripped group of the first match, or `""`. */
  function ExtractField(name: string, line: string): string {
    match SearchFrom(line, name, 0)
    case None => ""
    case Some(g) => Strip(g)
  }

  /** The line has `name:` at `p`, then `n >= 1` whitespace characters, then a
      character that is not whitespace. */
  ghost predicate LabelledAt(line: string, name: string, p: nat, n: nat) {
    var q := p + |name| + 1;
    OccursAt(line, name + ":", p) && n >= 1 && q + n < |line|
    && (forall k :: q <= k < q + n ==> IsSpace(line[k])) && !IsSpace(line[q + n])
  }

  /** A match yields a non-empty value only when `\s+` kept the whole
      whitespace run after `name:` and a non-whitespace character follows it;
      otherwise `(.+)` captured whitespace alone, which strips to nothing. */
  lemma {:induction false} GroupIsBlankUnlessRunKept(s: string, name: string, p: nat)
    requires p <= |s| && GroupAt(s, name, p).Some?
    ensures Strip(GroupAt(s, name, p).value) != [] ==>
              LabelledAt(s, name, p, SpaceRun(s, p + |name| + 1))
  {
    var q := p + |name| + 1;
    var n := SpaceRun(s, q);
    var w := SpacesKept(s, q, n);
    assert GroupAt(s, name, p).value == s[q + w..LineEnd(s, q + w)];
    SpaceRunSpec(s, q);
    if w < n {
      BacktrackedGroupIsBlank(s, q, n, w);
    } else {
      assert OccursAt(s, name + ":", p);
    }
  }

  /** When `\s+` had to give back part of the whitespace run, `.+` captured
      only whitespace. */
  lemma {:induction false} BacktrackedGroupIsBlank(s: string, q: nat, n: nat, w: nat)
    requires q <= |s| && n == SpaceRun(s, q) && w == SpacesKept(s, q, n) && w < n
    ensures Strip(s[q + w..LineEnd(s, q + w)]) == []
  {
    var e := LineEnd(s, q + w);
    var g := s[q + w..e];
    SpaceRunSpec(s, q);
    SpacesKeptSpec(s, q, n);
    // a newline is whitespace, so the run can only have ended at the end of `s`
    assert q + n == |s|;
    forall k | 0 <= k < |g| ensures IsSpace(g[k]) {
      assert g[k] == s[q + w + k];
    }
    StripOfBlank(g);
  }

  /** Soundness of the search: a non-empty value comes from a place where the
      line holds `name:`, at least one whitespace character and further text. */
  lemma {:induction false} SearchFromSound(s: string, name: string, p: nat)
    requires p <= |s|
    requires SearchFrom(s, name, p).Some? && Strip(SearchFrom(s, name, p).value) != []
    ensures exists p', n :: p <= p' && LabelledAt(s, name, p', n)
    decreases |s| - p
  {
    match GroupAt(s, name, p)
    case Some(g) =>
      GroupIsBlankUnlessRunKept(s, name, p);
    case None =>
      SearchFromSound(s, name, p + 1);
  }

  /** `extract_field` returns `""` unless the line contains `name:` followed by
      whitespace and further text; a non-empty result has no whitespace at
      either end. */
  lemma {:induction false} ExtractFieldSound(name: string, line: string)
    ensures ExtractField(name, line) != [] ==>
              exists p, n :: LabelledAt(line, name, p, n)
    ensures ExtractField(name, line) != [] ==>
              !IsSpace(ExtractField(name, line)[0]) &&
              !IsSpace(ExtractField(name, line)[|ExtractField(name, line)| - 1])
  {
    if ExtractField(name, line) != [] {
      SearchFromSound(line, name, 0);
      StripEnds(SearchFrom(line, name, 0).value);
    }
  }

  /** The search skips every position where `name:` does not start. */
  lemma {:induction false} SearchSkipsToLabel(s: string, name: string, p: nat, target: nat)
    requires p <= target <= |s|
    requires forall k :: p <= k < target ==> !OccursAt(s, name + ":", k)
    ensures SearchFrom(s, name, p) == SearchFrom(s, name, target)
    decreases target - p
  {
    if p < target {
      assert !OccursAt(s, name + ":", p);
      SearchSkipsToLabel(s, name, p + 1, target);
    }
  }

  /** The match at `p` of a line that reads `name:`, whitespace, then a value
      that starts with a non-whitespace character and holds no newline,
      captures exactly that value. */
  lemma {:induction false} GroupAtLabelled(s: string, name: string, p: nat, spaces: string, value: string)
    requires p <= |s| && s[p..] == name + ":" + spaces + value
    requires spaces != [] && forall k :: 0 <= k < |spaces| ==> IsSpace(spaces[k])
    requires value != [] && !IsSpace(value[0]) && '\n' !in value
    ensures GroupAt(s, name, p) == Some(value)
  {
    var key := name + ":";
    var q := p + |key|;
    assert s[p..][..|key|] == key;
    assert s[q..] == spaces + value;
    SpaceRunOver(s, q, spaces, value);
    var v := q + |spaces|;
    assert s[v..] == value;
    assert s[v] == value[0];
    assert SpacesKept(s, q, |spaces|) == |spaces|;
    LineEndOfTail(s, v);
    assert s[v..|s|] == value;
  }

  /** Reading back a labelled line: for `pre + name + ":" + spaces + value`,
      where `name:` does not start inside `pre`, `value` starts with a
      non-whitespace character and holds no newline, the field is `value`
      with its trailing whitespace removed. */
  lemma {:induction false} ExtractFieldOfLabelledLine(pre: string, name: string, spaces: string, value: string)
    requires forall k :: 0 <= k < |pre| ==> !OccursAt(pre + name + ":" + spaces + value, name + ":", k)
    requires spaces != [] && forall k :: 0 <= k < |spaces| ==> IsSpace(spaces[k])
    requires value != [] && !IsSpace(value[0]) && '\n' !in value
    ensures ExtractField(name, pre + name + ":" + spaces + value) == RStrip(value)
  {
    var s := pre + name + ":" + spaces + value;
    assert s[|pre|..] == name + ":" + spaces + value;
    SearchSkipsToLabel(s, name, 0, |pre|);
    GroupAtLabelled(s, name, |pre|, spaces, value);
    StripOfSolidStart(value);
  }

  /** The whitespace run at `q` covers exactly `spaces` when it is followed by a
      non-whitespace character. */
  lemma {:induction false} SpaceRunOver(s: string, q: nat, spaces: string, value: string)
    requires q + |spaces| + |value| == |s| && s[q..] == spaces + value
    requires forall k :: 0 <= k < |spaces| ==> IsSpace(spaces[k])
    requires value != [] && !IsSpace(value[0])
    ensures SpaceRun(s, q) == |spaces|
    decreases |spaces|
  {
    if spaces != [] {
      assert s[q] == spaces[0];
      assert s[q + 1..] == spaces[1..] + value;
      SpaceRunOver(s, q + 1, spaces[1..], value);
    } else {
      assert s[q] == value[0];
    }
  }

  /** A tail without newlines runs to the end of the line. */
  lemma {:induction false} LineEndOfTail(s: string, k: nat)
    requires k <= |s| && '\n' !in s[k..]
    ensures LineEnd(s, k) == |s|
  {
  }
}
