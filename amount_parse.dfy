/** `parse_amounts`: finds the decimal amounts on the line after a date line and
    sorts them into debit, credit and balance by the column where each starts. */
module AmountParse {
  import opened Text

  /** A character of the class `[\d,]`. */
  predicate IsAmountChar(c: char) {
    IsDigit(c) || c == ','
  }

  /** Text of the shape `[\d,]+\.\d{2}`. */
  predicate IsAmountText(t: string) {
    |t| >= 4 && t[|t| - 3] == '.' && IsDigit(t[|t| - 2]) && IsDigit(t[|t| - 1])
    && forall k :: 0 <= k < |t| - 3 ==> IsAmountChar(t[k])
  }

  /** Digits, a period and exactly two more digits: an amount with its
      thousands separators removed. */
  predicate IsPlainAmount(t: string) {
    |t| >= 3 && t[|t| - 3] == '.' && IsDigit(t[|t| - 2]) && IsDigit(t[|t| - 1])
    && forall k :: 0 <= k < |t| - 3 ==> IsDigit(t[k])
  }

  /** Length of the run of `[\d,]` characters that starts at `p`. */
  function AmountRun(s: string, p: nat): (n: nat)
    requires p <= |s|
    ensures p + n <= |s|
    ensures forall k :: p <= k < p + n ==> IsAmountChar(s[k])
    ensures p + n == |s| || !IsAmountChar(s[p + n])
    decreases |s| - p
  {
    if p < |s| && IsAmountChar(s[p]) then 1 + AmountRun(s, p + 1) else 0
  }

  /** Length of the amount that the pattern matches at `p`, or 0 when it does
      not match there. `[\d,]+` first takes the whole run; giving characters
      back cannot help, because the `.` that must follow is not in the run. */
  function AmountLenAt(s: string, p: nat): (len: nat)
    requires p <= |s|
    ensures len == 0 || (p + len <= |s| && IsAmountText(s[p..p + len]))
  {
    var n := AmountRun(s, p);
    if n >= 1 && p + n + 2 < |s| && s[p + n] == '.' && IsDigit(s[p + n + 1]) && IsDigit(s[p + n + 2])
    then n + 3 else 0
  }

  /** The run of `[\d,]` from `p` is exactly `m` long when `m` such characters
      are followed by one outside the class. */
  lemma {:induction false} AmountRunExact(s: string, p: nat, m: nat)
    requires p + m < |s|
    requires forall k :: p <= k < p + m ==> IsAmountChar(s[k])
    requires !IsAmountChar(s[p + m])
    ensures AmountRun(s, p) == m
    decreases m
  {
    if m > 0 {
      AmountRunExact(s, p + 1, m - 1);
    }
  }

  /** The match at `p` is the greedy one: whenever an amount text starts at
      `p`, the match found there has exactly its length. Since the period
      ends the `[\d,]` run, at most one amount text starts at any position. */
  lemma AmountLenAtComplete(s: string, p: nat, t: string)
    requires p <= |s| && t <= s[p..] && IsAmountText(t)
    ensures AmountLenAt(s, p) == |t|
  {
    var n := |t| - 3;
    forall k | p <= k < p + n
      ensures IsAmountChar(s[k])
    {
      assert s[k] == t[k - p];
    }
    assert s[p + n] == t[n];
    AmountRunExact(s, p, n);
    assert s[p + n + 1] == t[n + 1] && s[p + n + 2] == t[n + 2];
  }

  /** One match of the amount pattern: where it starts and the matched text. */
  datatype Match = Match(start: nat, text: string) {
    /** The column just after the match. */
    function End(): nat {
      start + |text|
    }
  }

  /** `m` is an amount that really occurs in `s` where it says it starts. */
  predicate IsMatchIn(s: string, m: Match) {
    m.End() <= |s| && m.text == s[m.start..m.End()] && IsAmountText(m.text)
  }

  /** `re.finditer` from position `p`: the non-overlapping matches, left to
      right, each search resuming where the previous match ended. */
  function FindAmounts(s: string, p: nat): (ms: seq<Match>)
    requires p <= |s|
    ensures forall k :: 0 <= k < |ms| ==> p <= ms[k].start && IsMatchIn(s, ms[k])
    ensures forall k :: 0 < k < |ms| ==> ms[k - 1].End() <= ms[k].start
    decreases |s| - p
  {
    if p == |s| then []
    else
      var len := AmountLenAt(s, p);
      if len > 0 then [Match(p, s[p..p + len])] + FindAmounts(s, p + len)
      else FindAmounts(s, p + 1)
  }

  /** Every match in `ms` is as long as the greedy match at its start. */
  predicate AllGreedy(s: string, ms: seq<Match>) {
    forall k :: 0 <= k < |ms| ==> ms[k].start <= |s| && |ms[k].text| == AmountLenAt(s, ms[k].start)
  }

  /** `finditer` never shortens a match: every match is the greedy match at
      its start. */
  lemma {:induction false} FindAmountsGreedy(s: string, p: nat)
    requires p <= |s|
    ensures AllGreedy(s, FindAmounts(s, p))
    decreases |s| - p
  {
    hide AmountLenAt, AmountRun, IsAmountText;
    if p < |s| {
      var len := AmountLenAt(s, p);
      var ms := FindAmounts(s, p);
      if len > 0 {
        var rest := FindAmounts(s, p + len);
        FindAmountsGreedy(s, p + len);
        assert ms == [Match(p, s[p..p + len])] + rest;
        forall k | 0 < k < |ms|
          ensures ms[k].start <= |s| && |ms[k].text| == AmountLenAt(s, ms[k].start)
        {
          assert ms[k] == rest[k - 1];
        }
      } else {
        FindAmountsGreedy(s, p + 1);
      }
    }
  }

  /** Some match in `ms` covers position `q`. */
  predicate Covers(ms: seq<Match>, q: nat) {
    exists k :: 0 <= k < |ms| && ms[k].start <= q < ms[k].End()
  }

  /** A position covered by the later matches is covered by the whole list. */
  lemma CoversTail(m: Match, rest: seq<Match>, q: nat)
    requires Covers(rest, q)
    ensures Covers([m] + rest, q)
  {
    var k :| 0 <= k < |rest| && rest[k].start <= q < rest[k].End();
    assert ([m] + rest)[k + 1] == rest[k];
  }

  /** `finditer` passes no amount by: no amount starts at a position from `p`
      on that no match covers. */
  lemma {:induction false} FindAmountsSkipsNone(s: string, p: nat)
    requires p <= |s|
    ensures forall q :: p <= q < |s| && !Covers(FindAmounts(s, p), q) ==> AmountLenAt(s, q) == 0
    decreases |s| - p
  {
    hide AmountLenAt, AmountRun, Covers;
    if p < |s| {
      var len := AmountLenAt(s, p);
      var ms := FindAmounts(s, p);
      if len > 0 {
        var m := Match(p, s[p..p + len]);
        var rest := FindAmounts(s, p + len);
        FindAmountsSkipsNone(s, p + len);
        assert ms == [m] + rest;
        forall q | p <= q < |s| && !Covers(ms, q)
          ensures AmountLenAt(s, q) == 0
        {
          if q < p + len {
            CoversHead(m, rest, q);
          } else if Covers(rest, q) {
            CoversTail(m, rest, q);
          }
        }
      } else {
        FindAmountsSkipsNone(s, p + 1);
      }
    }
  }

  /** A position inside the first match is covered. */
  lemma CoversHead(m: Match, rest: seq<Match>, q: nat)
    requires m.start <= q < m.End()
    ensures Covers([m] + rest, q)
  {
    assert ([m] + rest)[0] == m;
  }

  /** Matches are ordered: each starts after every earlier one has ended. */
  lemma {:induction false} MatchesOrdered(ms: seq<Match>, k: nat, l: nat)
    requires forall i :: 0 < i < |ms| ==> ms[i - 1].End() <= ms[i].start
    requires k < l < |ms|
    ensures ms[k].End() <= ms[l].start
    decreases l - k
  {
    if k + 1 < l {
      MatchesOrdered(ms, k + 1, l);
    }
  }

  /** Python `amount.replace(",", "")`. */
  function RemoveCommas(t: string): (r: string)
    ensures ',' !in r
  {
    if t == [] then []
    else RemoveCommas(t[..|t| - 1]) + (if t[|t| - 1] == ',' then [] else [t[|t| - 1]])
  }

  /** The column bands of the statement table. */
  datatype Column = Ignored | Debit | Credit | Balance

  /** The band of an amount that starts at character column `pos`. */
  function ColumnOf(pos: nat): Column {
    if pos >= 100 then Balance
    else if pos >= 80 then Credit
    else if pos >= 60 then Debit
    else Ignored
  }

  /** Index of the last match that starts in band `c`. */
  function LastIn(ms: seq<Match>, c: Column): (r: Option<nat>)
    ensures r.Some? ==> r.value < |ms| && ColumnOf(ms[r.value].start) == c
                        && forall k :: r.value < k < |ms| ==> ColumnOf(ms[k].start) != c
    ensures r.None? ==> forall k :: 0 <= k < |ms| ==> ColumnOf(ms[k].start) != c
  {
    if ms == [] then None
    else if ColumnOf(ms[|ms| - 1].start) == c then Some(|ms| - 1)
    else LastIn(ms[..|ms| - 1], c)
  }

  /** The value stored for band `c`: the last amount in that band, without
      commas, or `""` when the band holds none. */
  function FieldFor(ms: seq<Match>, c: Column): string {
    match LastIn(ms, c)
    case None => ""
    case Some(k) => RemoveCommas(ms[k].text)
  }

  /** The parsed amount line: text before the first amount, and the debit,
      credit and balance amounts. */
  datatype Amounts = Amounts(prefix: string, debi: string, kredi: string, balanca: string)

  /** Reference definition of `parse_amounts`. */
  function AmountsOf(line: string): Amounts {
    var ms := FindAmounts(line, 0);
    Amounts(
      if ms == [] then Strip(line) else Strip(line[..ms[0].start]),
      FieldFor(ms, Debit),
      FieldFor(ms, Credit),
      FieldFor(ms, Balance))
  }

  /** `parse_amounts`: walk the matches left to right, remember the smallest
      start column, and let each amount overwrite its band's slot. */
  method ParseAmounts(line: string) returns (result: Amounts)
    ensures result == AmountsOf(line)
  {
    hide RemoveCommas, Strip, AmountLenAt;
    var ms := FindAmounts(line, 0);
    result := Amounts("", "", "", "");
    var firstPos: Option<nat> := None;
    for k := 0 to |ms|
      invariant result.debi == FieldFor(ms[..k], Debit)
      invariant result.kredi == FieldFor(ms[..k], Credit)
      invariant result.balanca == FieldFor(ms[..k], Balance)
      invariant firstPos == if k == 0 then None else Some(ms[0].start)
    {
      FieldForExtend(ms, k, Debit);
      FieldForExtend(ms, k, Credit);
      FieldForExtend(ms, k, Balance);
      if k > 0 {
        MatchesOrdered(ms, 0, k);
      }
      var amt := RemoveCommas(ms[k].text);
      var pos := ms[k].start;
      if firstPos.None? || pos < firstPos.value {
        firstPos := Some(pos);
      }
      if pos >= 100 {
        result := result.(balanca := amt);
      } else if pos >= 80 {
        result := result.(kredi := amt);
      } else if pos >= 60 {
        result := result.(debi := amt);
      }
    }
    assert ms[..|ms|] == ms;
    if firstPos.Some? {
      result := result.(prefix := Strip(line[..firstPos.value]));
    } else {
      result := result.(prefix := Strip(line));
    }
  }

  /** Taking one more match into account: it replaces the band's slot exactly
      when it lies in that band. */
  lemma FieldForExtend(ms: seq<Match>, k: nat, c: Column)
    requires k < |ms|
    ensures FieldFor(ms[..k + 1], c) ==
              if ColumnOf(ms[k].start) == c then RemoveCommas(ms[k].text) else FieldFor(ms[..k], c)
  {
    assert ms[..k + 1][..k] == ms[..k];
  }

  /** Removing commas from `[\d,]+\.\d{2}` leaves digits, a period and two
      digits. */
  lemma {:induction false} RemoveCommasOfAmount(t: string)
    requires IsAmountText(t)
    ensures IsPlainAmount(RemoveCommas(t))
  {
    var n := |t| - 3;
    var head := t[..n];
    assert t[..n + 3] == t;
    assert t[..n + 2][..n + 1] == t[..n + 1];
    assert t[..n + 3][..n + 2] == t[..n + 2];
    assert t[..n + 1][..n] == head;
    assert RemoveCommas(t[..n + 1]) == RemoveCommas(head) + ['.'];
    assert RemoveCommas(t[..n + 2]) == RemoveCommas(head) + ['.', t[n + 1]];
    assert RemoveCommas(t) == RemoveCommas(head) + ['.', t[n + 1], t[n + 2]];
    RemoveCommasOfDigitsAndCommas(head);
  }

  /** Commas are removed piece by piece. */
  lemma {:induction false} RemoveCommasAppend(a: string, b: string)
    ensures RemoveCommas(a + b) == RemoveCommas(a) + RemoveCommas(b)
    decreases |b|
  {
    if b != [] {
      var init := b[..|b| - 1];
      RemoveCommasAppend(a, init);
      assert (a + b)[..|a + b| - 1] == a + init;
    } else {
      assert a + b == a;
    }
  }

  /** Text without commas passes through unchanged. */
  lemma {:induction false} RemoveCommasOfPlain(t: string)
    requires ',' !in t
    ensures RemoveCommas(t) == t
  {
    if t != [] {
      RemoveCommasOfPlain(t[..|t| - 1]);
    }
  }

  /** Removing commas from a run of `[\d,]` leaves only digits. */
  lemma {:induction false} RemoveCommasOfDigitsAndCommas(t: string)
    requires forall k :: 0 <= k < |t| ==> IsAmountChar(t[k])
    ensures forall k :: 0 <= k < |RemoveCommas(t)| ==> IsDigit(RemoveCommas(t)[k])
  {
    if t != [] {
      RemoveCommasOfDigitsAndCommas(t[..|t| - 1]);
    }
  }

  /** Every stored amount is a plain amount without commas, and the slot for a
      band is empty exactly when no match starts in that band; otherwise it
      holds the LAST amount in that band, so later amounts overwrite earlier
      ones. */
  lemma {:induction false} FieldForMeaning(ms: seq<Match>, c: Column)
    requires forall k :: 0 <= k < |ms| ==> IsAmountText(ms[k].text)
    ensures ',' !in FieldFor(ms, c)
    ensures FieldFor(ms, c) == [] <==> forall k :: 0 <= k < |ms| ==> ColumnOf(ms[k].start) != c
    ensures forall k :: 0 <= k < |ms| && ColumnOf(ms[k].start) == c
                        && (forall l :: k < l < |ms| ==> ColumnOf(ms[l].start) != c)
                        ==> FieldFor(ms, c) == RemoveCommas(ms[k].text)
    ensures FieldFor(ms, c) != [] ==> IsPlainAmount(FieldFor(ms, c))
  {
    match LastIn(ms, c)
    case None =>
    case Some(j) =>
      RemoveCommasOfAmount(ms[j].text);
  }

  /** Every match found on a line is amount text. */
  lemma MatchTexts(line: string)
    ensures var ms := FindAmounts(line, 0);
            forall k :: 0 <= k < |ms| ==> IsAmountText(ms[k].text)
  {
    var ms := FindAmounts(line, 0);
    forall k | 0 <= k < |ms| ensures IsAmountText(ms[k].text) {
      assert IsMatchIn(line, ms[k]);
    }
  }

  /** The balance of a line is present exactly when some amount on it starts
      at column 100 or later. */
  lemma {:induction false} BalancePresence(line: string)
    ensures var ms := FindAmounts(line, 0);
            AmountsOf(line).balanca != [] <==> exists k :: 0 <= k < |ms| && ms[k].start >= 100
  {
    MatchTexts(line);
    FieldForMeaning(FindAmounts(line, 0), Balance);
  }

  /** Each amount `parse_amounts` stores is empty or a plain amount: digits, a
      period and two digits, with the thousands separators removed. */
  lemma {:induction false} StoredAmountsArePlain(line: string)
    ensures var a := AmountsOf(line);
            (a.debi == [] || IsPlainAmount(a.debi)) && (a.kredi == [] || IsPlainAmount(a.kredi))
            && (a.balanca == [] || IsPlainAmount(a.balanca))
  {
    var ms := FindAmounts(line, 0);
    MatchTexts(line);
    FieldForMeaning(ms, Debit);
    FieldForMeaning(ms, Credit);
    FieldForMeaning(ms, Balance);
  }

  /** The prefix is the stripped text before the first amount, which is also
      the leftmost one; the whole stripped line when there is no amount. */
  lemma {:induction false} PrefixRule(line: string)
    ensures var ms := FindAmounts(line, 0);
            ms == [] ==> AmountsOf(line).prefix == Strip(line)
    ensures var ms := FindAmounts(line, 0);
            ms != [] ==> AmountsOf(line).prefix == Strip(line[..ms[0].start])
                         && forall k :: 0 <= k < |ms| ==> ms[0].start <= ms[k].start
  {
    var ms := FindAmounts(line, 0);
    forall k | 0 <= k < |ms| ensures ms[0].start <= ms[k].start {
      if k > 0 {
        MatchesOrdered(ms, 0, k);
      }
    }
  }

  /** With a single match, a band's slot holds it exactly when it lies in that band. */
  lemma FieldForSingle(m: Match, c: Column)
    ensures FieldFor([m], c) == if ColumnOf(m.start) == c then RemoveCommas(m.text) else []
  {
    assert [m][..0] == [];
  }

  /** An amount that runs to the end of the line is the last match. */
  lemma LastAmount(s: string, p: nat, len: nat)
    requires p + len == |s| && AmountRun(s, p) + 3 == len && 4 <= len
    requires s[|s| - 3] == '.' && IsDigit(s[|s| - 2]) && IsDigit(s[|s| - 1])
    ensures FindAmounts(s, p) == [Match(p, s[p..|s|])]
  {
    assert AmountLenAt(s, p) == len;
    assert FindAmounts(s, |s|) == [];
  }

  /** The search passes over the blanks in front of an amount. */
  lemma {:induction false} SkipBlanks(s: string, p: nat, c: nat)
    requires p <= c <= |s| && forall k :: p <= k < c ==> s[k] == ' '
    ensures FindAmounts(s, p) == FindAmounts(s, c)
    decreases c - p
  {
    if p < c {
      assert AmountLenAt(s, p) == 0;
      SkipBlanks(s, p + 1, c);
    }
  }

  /** The run of `[\d,]` at the start of an amount stops at its period. */
  lemma {:induction false} AmountRunOfAmount(s: string, p: nat, amount: string)
    requires IsAmountText(amount) && p + |amount| == |s| && s[p..] == amount
    ensures AmountRun(s, p) == |amount| - 3
    decreases |amount|
  {
    if |amount| > 4 {
      assert s[p + 1..] == amount[1..];
      assert s[p] == amount[0];
      AmountRunOfAmount(s, p + 1, amount[1..]);
    } else {
      assert s[p] == amount[0];
      assert s[p + 1] == amount[1];
    }
  }
}
