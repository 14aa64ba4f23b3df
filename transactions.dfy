/** The transaction reconstructor: the forward scan in `process_pdf` that turns
    the cleaned statement lines into transaction rows. */
module Transactions {
  import opened Text
  import opened FieldExtract
  import opened AmountParse

  /** `DATE_PATTERN`, `^(\d{2}-[A-Z]{3}-\d{4})\s*$`: a date such as
      `01-JAN-2024`, then nothing but whitespace. */
  predicate IsDate(s: string) {
    |s| >= 11
    && IsDigit(s[0]) && IsDigit(s[1]) && s[2] == '-'
    && IsUpper(s[3]) && IsUpper(s[4]) && IsUpper(s[5]) && s[6] == '-'
    && IsDigit(s[7]) && IsDigit(s[8]) && IsDigit(s[9]) && IsDigit(s[10])
    && forall k :: 11 <= k < |s| ==> IsSpace(s[k])
  }

  /** A transaction start line: the stripped line is a date. */
  predicate IsDateLine(line: string) {
    IsDate(Strip(line))
  }

  /** One output row; the fields are the CSV columns
      `"", Detajet, Perfituesi, Referenca, Nr i Kartes, Data/Ora, Terminali,
      Debi, Kredi, Balanca`. */
  datatype Row = Row(
    prefix: string,
    detajet: string,
    perfituesi: string,
    referenca: string,
    nrKartes: string,
    dataOra: string,
    terminali: string,
    debi: string,
    kredi: string,
    balanca: string)

  /** A row that carries only the amount line's values. */
  function AmountsRow(a: Amounts): Row {
    Row(a.prefix, "", "", "", "", "", "", a.debi, a.kredi, a.balanca)
  }

  /** The line holds a description label (`Detajet:`, or its split form `Detaj et:`). */
  predicate HasDescriptionLabel(line: string) {
    Contains(line, "Detajet:") || Contains(line, "Detaj et:")
  }

  /** The description value, trying the label and then its split form. */
  function DescriptionValue(line: string): string {
    var d := ExtractField("Detajet", line);
    if d != [] then d else ExtractField("Detaj et", line)
  }

  /** The line holds a beneficiary label (`Perfituesi:` or `Me Urdher Te:`). */
  predicate HasBeneficiaryLabel(line: string) {
    Contains(line, "Perfituesi:") || Contains(line, "Me Urdher Te:")
  }

  /** The beneficiary value under whichever label yields one. */
  function BeneficiaryValue(line: string): string {
    var b := ExtractField("Perfituesi", line);
    if b != [] then b else ExtractField("Me Urdher Te", line)
  }

  /** Where the description was found, relative to the start line, and its value. */
  datatype Description = Absent | Found(offset: nat, value: string)

  /** The description lookup: the first of the lines at offsets 2 and 3 that
      holds a description label. */
  function FindDescription(lines: seq<string>, i: nat): (d: Description)
    requires i + 2 < |lines|
    ensures d.Found? ==> (d.offset == 2 || d.offset == 3) && i + d.offset < |lines|
                         && HasDescriptionLabel(lines[i + d.offset])
                         && d.value == DescriptionValue(lines[i + d.offset])
                         && (d.offset == 3 ==> !HasDescriptionLabel(lines[i + 2]))
    ensures d.Absent? ==> !HasDescriptionLabel(lines[i + 2])
                          && (i + 3 < |lines| ==> !HasDescriptionLabel(lines[i + 3]))
  {
    if HasDescriptionLabel(lines[i + 2]) then Found(2, DescriptionValue(lines[i + 2]))
    else if i + 3 < |lines| && HasDescriptionLabel(lines[i + 3]) then Found(3, DescriptionValue(lines[i + 3]))
    else Absent
  }

  /** Index of the first date line at or after `k`, or `|lines|` when there is none. */
  function NextDate(lines: seq<string>, k: nat): (j: nat)
    requires k <= |lines|
    ensures k <= j <= |lines|
    ensures j < |lines| ==> IsDateLine(lines[j])
    ensures forall m :: k <= m < j ==> !IsDateLine(lines[m])
    decreases |lines| - k
  {
    if k == |lines| || IsDateLine(lines[k]) then k else NextDate(lines, k + 1)
  }

  /** The continuation of a beneficiary: every line from `k` up to the next
      date line, stripped, in order. */
  function Continuation(lines: seq<string>, k: nat): (r: seq<string>)
    requires k <= |lines|
    ensures |r| == NextDate(lines, k) - k
    ensures forall m :: 0 <= m < |r| ==> k + m < |lines| && r[m] == Strip(lines[k + m])
    decreases |lines| - k
  {
    if k == |lines| || IsDateLine(lines[k]) then [] else [Strip(lines[k])] + Continuation(lines, k + 1)
  }

  /** Field `name` read from line `k`, or `""` past the end of the document. */
  function FieldAt(lines: seq<string>, k: nat, name: string): string {
    if k < |lines| then ExtractField(name, lines[k]) else ""
  }

  /** The terminal field, trying the label and then its split form `Termi nali`. */
  function TerminalAt(lines: seq<string>, k: nat): string {
    if k < |lines| then
      var t := ExtractField("Terminali", lines[k]);
      if t != [] then t else ExtractField("Termi nali", lines[k])
    else ""
  }

  /** The four layouts a transaction can take. */
  datatype Arm = NoDescription | Beneficiary | ImmediateNextDate | StructuredPos

  /** What one step of the scan does at cursor `i`: skip the line, or emit a
      row; either way it names where the cursor goes next. */
  datatype Outcome = Rejected(next: nat) | Accepted(arm: Arm, row: Row, next: nat)

  /** The cursor stands on the first line of a transaction: a date line
      followed by a line whose amounts include a balance. */
  predicate OpensTransaction(lines: seq<string>, i: nat)
    requires i + 1 < |lines|
  {
    IsDateLine(lines[i]) && AmountsOf(lines[i + 1]).balanca != []
  }

  /** The row of a transaction that opens at `i`, given its parsed amount line
      `a` and its description lookup `d`; the line after the description
      decides the layout and where the cursor goes afterwards. */
  function Layout(lines: seq<string>, i: nat, a: Amounts, d: Description): (o: Outcome)
    requires i + 2 < |lines|
    ensures o.Accepted? && i < o.next
    ensures o.row.prefix == a.prefix && o.row.debi == a.debi
            && o.row.kredi == a.kredi && o.row.balanca == a.balanca
  {
    if d.Absent? || d.value == [] then
      Accepted(NoDescription, AmountsRow(a), NextDate(lines, i + 2))
    else
      var n := i + d.offset + 1;
      if n < |lines| && HasBeneficiaryLabel(lines[n]) then
        var parts := [BeneficiaryValue(lines[n])] + Continuation(lines, n + 1);
        Accepted(Beneficiary,
                 Row(a.prefix, d.value, JoinWith(" ", parts), "", "", "", "", a.debi, a.kredi, a.balanca),
                 NextDate(lines, n + 1))
      else if n < |lines| && IsDateLine(lines[n]) then
        Accepted(ImmediateNextDate, Row(a.prefix, d.value, "", "", "", "", "", a.debi, a.kredi, a.balanca), n)
      else
        Accepted(StructuredPos,
                 Row(a.prefix, d.value, "", FieldAt(lines, n, "Referenca"), FieldAt(lines, n + 1, "Nr i Kartes"),
                     FieldAt(lines, n + 2, "Data/Ora"), TerminalAt(lines, n + 3), a.debi, a.kredi, a.balanca),
                 i + d.offset + 5)
  }

  /** The transaction that opens at `i`: its amounts come from line `i + 1`
      and its description from the lookup at offsets 2 and 3. */
  function TransactionAt(lines: seq<string>, i: nat): (o: Outcome)
    requires i + 2 < |lines|
    ensures o.Accepted? && i < o.next
    ensures var a := AmountsOf(lines[i + 1]);
            o.row.prefix == a.prefix && o.row.debi == a.debi
            && o.row.kredi == a.kredi && o.row.balanca == a.balanca
  {
    Layout(lines, i, AmountsOf(lines[i + 1]), FindDescription(lines, i))
  }

  /** One iteration of the scan at cursor `i`: a transaction when one opens
      there, otherwise the line is skipped. */
  function StepAt(lines: seq<string>, i: nat): (o: Outcome)
    requires i + 2 < |lines|
    ensures i < o.next
  {
    if OpensTransaction(lines, i) then TransactionAt(lines, i) else Rejected(i + 1)
  }

  /** A row together with the start line it came from and the layout it had. */
  datatype Emitted = Emitted(start: nat, arm: Arm, row: Row)

  /** Every step moves the cursor forward. */
  predicate Advancing(os: seq<Outcome>) {
    forall k :: 0 <= k < |os| ==> k < os[k].next
  }

  /** The scan loop over a document whose step at cursor `k` has outcome
      `os[k]`: the rows emitted from cursor `i` on, each with its start line.
      The loop stops once the cursor reaches `|os|`. */
  function ScanFrom(os: seq<Outcome>, i: nat): seq<Emitted>
    requires Advancing(os)
    decreases |os| - i
  {
    if i >= |os| then []
    else
      match os[i]
      case Rejected(n) => ScanFrom(os, n)
      case Accepted(arm, row, n) => [Emitted(i, arm, row)] + ScanFrom(os, n)
  }

  /** The outcome of the step at every cursor the loop can visit: each line
      that still has two lines after it. */
  function Outcomes(lines: seq<string>): (os: seq<Outcome>)
    ensures |os| == if |lines| < 2 then 0 else |lines| - 2
    ensures forall k :: 0 <= k < |os| ==> os[k] == StepAt(lines, k)
    ensures Advancing(os)
  {
    if |lines| < 2 then [] else seq(|lines| - 2, k requires 0 <= k < |lines| - 2 => StepAt(lines, k))
  }

  /** Reference definition of the transaction loop: the rows emitted from
      cursor `i` on. */
  function Trace(lines: seq<string>, i: nat): seq<Emitted> {
    ScanFrom(Outcomes(lines), i)
  }

  /** The rows alone. */
  function RowsOf(t: seq<Emitted>): (rows: seq<Row>)
    ensures |rows| == |t| && forall k :: 0 <= k < |t| ==> rows[k] == t[k].row
  {
    if t == [] then [] else [t[0].row] + RowsOf(t[1..])
  }

  /** Unfolding the scan at a rejected line: nothing is emitted there. */
  lemma TraceRejected(lines: seq<string>, i: nat)
    requires i + 2 < |lines| && StepAt(lines, i).Rejected?
    ensures Trace(lines, i) == Trace(lines, StepAt(lines, i).next)
  {
    assert Outcomes(lines)[i] == StepAt(lines, i);
  }

  /** Unfolding the scan at an accepted line: its row comes first. */
  lemma TraceAccepted(lines: seq<string>, i: nat)
    requires i + 2 < |lines| && StepAt(lines, i).Accepted?
    ensures RowsOf(Trace(lines, i)) == [StepAt(lines, i).row] + RowsOf(Trace(lines, StepAt(lines, i).next))
  {
    var o := StepAt(lines, i);
    assert Outcomes(lines)[i] == o;
    var t := Trace(lines, i);
    assert t == [Emitted(i, o.arm, o.row)] + Trace(lines, o.next);
    assert t[1..] == Trace(lines, o.next);
  }

  /** The step at a line that is not a date, or whose next line has no
      balance, rejects it and moves the cursor by one. */
  lemma StepRejects(lines: seq<string>, i: nat)
    requires i + 2 < |lines| && !OpensTransaction(lines, i)
    ensures StepAt(lines, i) == Rejected(i + 1)
  {
  }

  /** The arm without a description: a row of amounts alone, and the cursor
      moves to the next date line at or after `i + 2`. */
  lemma StepNoDescription(lines: seq<string>, i: nat)
    requires i + 2 < |lines|
    requires FindDescription(lines, i).Absent? || FindDescription(lines, i).value == []
    ensures TransactionAt(lines, i) ==
              Accepted(NoDescription, AmountsRow(AmountsOf(lines[i + 1])), NextDate(lines, i + 2))
  {
    hide ExtractField, IsDateLine, HasBeneficiaryLabel, HasDescriptionLabel, AmountsOf;
  }

  /** The beneficiary arm: the line after the description holds a beneficiary
      label; the beneficiary is its value joined by single spaces with every
      following stripped line up to the next date line, where the cursor goes. */
  lemma StepBeneficiary(lines: seq<string>, i: nat)
    requires i + 2 < |lines|
    requires FindDescription(lines, i).Found? && FindDescription(lines, i).value != []
    requires var n := i + FindDescription(lines, i).offset + 1;
             n < |lines| && HasBeneficiaryLabel(lines[n])
    ensures var d := FindDescription(lines, i);
            var n := i + d.offset + 1;
            TransactionAt(lines, i) ==
              Accepted(Beneficiary,
                       AmountsRow(AmountsOf(lines[i + 1])).(
                         detajet := d.value,
                         perfituesi := JoinWith(" ", [BeneficiaryValue(lines[n])] + Continuation(lines, n + 1))),
                       NextDate(lines, n + 1))
  {
    hide ExtractField, IsDateLine, HasBeneficiaryLabel, HasDescriptionLabel, AmountsOf;
  }

  /** The arm whose description is followed directly by the next date line:
      the cursor moves to that date line. */
  lemma StepImmediateNextDate(lines: seq<string>, i: nat)
    requires i + 2 < |lines|
    requires FindDescription(lines, i).Found? && FindDescription(lines, i).value != []
    requires var n := i + FindDescription(lines, i).offset + 1;
             n < |lines| && !HasBeneficiaryLabel(lines[n]) && IsDateLine(lines[n])
    ensures var d := FindDescription(lines, i);
            TransactionAt(lines, i) ==
              Accepted(ImmediateNextDate, AmountsRow(AmountsOf(lines[i + 1])).(detajet := d.value),
                       i + d.offset + 1)
  {
    hide ExtractField, IsDateLine, HasBeneficiaryLabel, HasDescriptionLabel, AmountsOf;
  }

  /** The card-payment arm: reference, card number, date/time and terminal
      are read from the four lines after the description (`""` past the end),
      and the cursor moves five lines past the description's offset. */
  lemma StepStructuredPos(lines: seq<string>, i: nat)
    requires i + 2 < |lines|
    requires FindDescription(lines, i).Found? && FindDescription(lines, i).value != []
    requires var n := i + FindDescription(lines, i).offset + 1;
             !(n < |lines| && (HasBeneficiaryLabel(lines[n]) || IsDateLine(lines[n])))
    ensures var d := FindDescription(lines, i);
            var n := i + d.offset + 1;
            TransactionAt(lines, i) ==
              Accepted(StructuredPos,
                       AmountsRow(AmountsOf(lines[i + 1])).(
                         detajet := d.value,
                         referenca := FieldAt(lines, n, "Referenca"),
                         nrKartes := FieldAt(lines, n + 1, "Nr i Kartes"),
                         dataOra := FieldAt(lines, n + 2, "Data/Ora"),
                         terminali := TerminalAt(lines, n + 3)),
                       i + d.offset + 5)
  {
    hide ExtractField, IsDateLine, HasBeneficiaryLabel, HasDescriptionLabel, AmountsOf;
  }

  /** The description lookup of the loop: offsets 2 and 3, the first line
      holding a label wins. */
  method LookUpDescription(lines: seq<string>, i: nat) returns (detajetOffset: Option<nat>, detajet: string)
    requires i + 2 < |lines|
    ensures detajetOffset.None? ==>
              detajet == [] && !HasDescriptionLabel(lines[i + 2])
              && (i + 3 < |lines| ==> !HasDescriptionLabel(lines[i + 3]))
    ensures detajetOffset.Some? ==>
              var o := detajetOffset.value;
              (o == 2 || o == 3) && i + o < |lines| && HasDescriptionLabel(lines[i + o])
              && (o == 3 ==> !HasDescriptionLabel(lines[i + 2]))
              && detajet == DescriptionValue(lines[i + o])
  {
    hide ExtractField, HasDescriptionLabel, DescriptionValue;
    detajetOffset := None;
    detajet := "";
    for offset := 2 to 4
      invariant detajetOffset.None? && detajet == []
      invariant offset > 2 ==> !HasDescriptionLabel(lines[i + 2])
      invariant offset > 3 && i + 3 < |lines| ==> !HasDescriptionLabel(lines[i + 3])
    {
      if i + offset < |lines| {
        var line := lines[i + offset];
        if HasDescriptionLabel(line) {
          detajet := DescriptionValue(line);
          detajetOffset := Some(offset);
          break;
        }
      }
    }
  }

  /** What the description lookup found is the description of the
      transaction. */
  lemma DescriptionLookedUp(lines: seq<string>, i: nat, detajetOffset: Option<nat>, detajet: string)
    requires i + 2 < |lines|
    requires detajetOffset.None? ==>
               detajet == [] && !HasDescriptionLabel(lines[i + 2])
               && (i + 3 < |lines| ==> !HasDescriptionLabel(lines[i + 3]))
    requires detajetOffset.Some? ==>
               var o := detajetOffset.value;
               (o == 2 || o == 3) && i + o < |lines| && HasDescriptionLabel(lines[i + o])
               && (o == 3 ==> !HasDescriptionLabel(lines[i + 2]))
               && detajet == DescriptionValue(lines[i + o])
    ensures detajetOffset.None? ==> FindDescription(lines, i) == Absent
    ensures detajetOffset.Some? ==> FindDescription(lines, i) == Found(detajetOffset.value, detajet)
  {
  }

  /** The inner scan for the next date line at or after `k`. */
  method SkipToDate(lines: seq<string>, k: nat) returns (j: nat)
    requires k <= |lines|
    ensures j == NextDate(lines, k)
  {
    j := k;
    while j < |lines| && !IsDateLine(lines[j])
      invariant k <= j <= |lines|
      invariant NextDate(lines, k) == NextDate(lines, j)
    {
      j := j + 1;
    }
  }

  /** The continuation lines of a beneficiary: every stripped line from `k` up
      to the next date line, and that line's index. */
  method CollectContinuation(lines: seq<string>, k: nat, first: string) returns (parts: seq<string>, j: nat)
    requires k <= |lines|
    ensures j == NextDate(lines, k)
    ensures parts == [first] + Continuation(lines, k)
  {
    parts := [first];
    j := k;
    while j < |lines| && !IsDateLine(lines[j])
      invariant k <= j <= |lines|
      invariant NextDate(lines, k) == NextDate(lines, j)
      invariant parts + Continuation(lines, j) == [first] + Continuation(lines, k)
    {
      parts := parts + [Strip(lines[j])];
      j := j + 1;
    }
  }

  /** One pass of the body of the transaction loop at cursor `i`: the line is
      skipped unless it opens a transaction. */
  method ScanStep(lines: seq<string>, i: nat) returns (o: Outcome)
    requires i + 2 < |lines|
    ensures o == StepAt(lines, i)
  {
    hide ExtractField, IsDateLine, HasBeneficiaryLabel, HasDescriptionLabel, AmountsOf;
    if !IsDateLine(lines[i]) {
      return Rejected(i + 1);
    }
    var amounts := ParseAmounts(lines[i + 1]);
    if amounts.balanca == [] {
      return Rejected(i + 1);
    }
    o := ScanTransaction(lines, i, amounts);
  }

  /** The transaction that opens at `i`, whose amount line parsed to `amounts`. */
  method ScanTransaction(lines: seq<string>, i: nat, amounts: Amounts) returns (o: Outcome)
    requires i + 2 < |lines| && amounts == AmountsOf(lines[i + 1])
    ensures o == TransactionAt(lines, i)
  {
    hide ExtractField, IsDateLine, HasBeneficiaryLabel, HasDescriptionLabel, AmountsOf;
    // The description sits on line i + 2, or on i + 3 after a two-line entry.
    var detajetOffset, detajet := LookUpDescription(lines, i);
    DescriptionLookedUp(lines, i, detajetOffset, detajet);

    if detajet == [] {
      // No description: emit the amounts alone and skip to the next date.
      var j := SkipToDate(lines, i + 2);
      var row := AmountsRow(amounts);
      return Accepted(NoDescription, row, j);
    }
    o := DescribedTransaction(lines, i, amounts, detajetOffset.value, detajet);
  }

  /** A transaction with a description at offset `offset`: the line after the
      description decides the layout. */
  method DescribedTransaction(lines: seq<string>, i: nat, amounts: Amounts, offset: nat, detajet: string)
      returns (o: Outcome)
    requires i + 2 < |lines| && detajet != []
    ensures o == Layout(lines, i, amounts, Found(offset, detajet))
  {
    hide ExtractField, IsDateLine, HasBeneficiaryLabel, HasDescriptionLabel, AmountsOf;
    var nextLineIdx := i + offset + 1;
    if nextLineIdx < |lines| {
      var nextLine := lines[nextLineIdx];
      if HasBeneficiaryLabel(nextLine) {
        o := BeneficiaryTransaction(lines, i, amounts, offset, detajet);
        return;
      }
      if IsDateLine(nextLine) {
        // The description was the last line of this transaction.
        var row := Row(amounts.prefix, detajet, "", "", "", "", "", amounts.debi, amounts.kredi, amounts.balanca);
        return Accepted(ImmediateNextDate, row, nextLineIdx);
      }
    }
    o := PosTransaction(lines, i, amounts, offset, detajet);
  }

  /** Beneficiary: the value plus every following line up to the next date. */
  method BeneficiaryTransaction(lines: seq<string>, i: nat, amounts: Amounts, offset: nat, detajet: string)
      returns (o: Outcome)
    requires i + 2 < |lines| && detajet != []
    requires i + offset + 1 < |lines| && HasBeneficiaryLabel(lines[i + offset + 1])
    ensures o == Layout(lines, i, amounts, Found(offset, detajet))
  {
    hide ExtractField, IsDateLine, HasBeneficiaryLabel, HasDescriptionLabel, AmountsOf;
    var nextLineIdx := i + offset + 1;
    var nextLine := lines[nextLineIdx];
    var first := ExtractField("Perfituesi", nextLine);
    if first == [] {
      first := ExtractField("Me Urdher Te", nextLine);
    }
    var parts, j := CollectContinuation(lines, nextLineIdx + 1, first);
    var row := Row(amounts.prefix, detajet, JoinWith(" ", parts), "", "", "", "",
                   amounts.debi, amounts.kredi, amounts.balanca);
    return Accepted(Beneficiary, row, j);
  }

  /** Card payment: four fixed lines after the description. */
  method PosTransaction(lines: seq<string>, i: nat, amounts: Amounts, offset: nat, detajet: string)
      returns (o: Outcome)
    requires i + 2 < |lines| && detajet != []
    requires var n := i + offset + 1;
             !(n < |lines| && (HasBeneficiaryLabel(lines[n]) || IsDateLine(lines[n])))
    ensures o == Layout(lines, i, amounts, Found(offset, detajet))
  {
    hide ExtractField, IsDateLine, HasBeneficiaryLabel, HasDescriptionLabel, AmountsOf;
    var refLine := i + offset + 1;
    var terminali := "";
    if refLine + 3 < |lines| {
      var termLine := lines[refLine + 3];
      terminali := ExtractField("Terminali", termLine);
      if terminali == [] {
        terminali := ExtractField("Termi nali", termLine);
      }
    }
    var row := Row(
      amounts.prefix,
      detajet,
      "",
      if refLine < |lines| then ExtractField("Referenca", lines[refLine]) else "",
      if refLine + 1 < |lines| then ExtractField("Nr i Kartes", lines[refLine + 1]) else "",
      if refLine + 2 < |lines| then ExtractField("Data/Ora", lines[refLine + 2]) else "",
      terminali,
      amounts.debi,
      amounts.kredi,
      amounts.balanca);
    return Accepted(StructuredPos, row, i + offset + 5);
  }

  /** The transaction loop of `process_pdf` over the cleaned lines: every row
      the scan emits, in order, and each has a balance. */
  method ParseTransactions(lines: seq<string>) returns (rows: seq<Row>)
    ensures rows == RowsOf(Trace(lines, 0))
    ensures forall k :: 0 <= k < |rows| ==> rows[k].balanca != []
  {
    hide ExtractField, IsDateLine, HasBeneficiaryLabel, HasDescriptionLabel, AmountsOf, StepAt, Layout;
    rows := [];
    var i: nat := 0;
    while i < |lines| - 2
      invariant rows + RowsOf(Trace(lines, i)) == RowsOf(Trace(lines, 0))
      decreases |lines| - i
    {
      var o := ScanStep(lines, i);
      if o.Accepted? {
        TraceAccepted(lines, i);
        rows := rows + [o.row];
      } else {
        TraceRejected(lines, i);
      }
      i := o.next;
    }
    TraceRowsHaveBalance(lines, 0);
  }

  /** `e` is the row the scan emits when its cursor stands on `e.start`. */
  ghost predicate EmittedBy(os: seq<Outcome>, e: Emitted) {
    e.start < |os| && os[e.start].Accepted? && os[e.start].arm == e.arm && os[e.start].row == e.row
  }

  /** Every element of the scan from cursor `i` is emitted by the step at its
      start line, no row starts before the cursor, and rows appear in scan
      order: their start lines strictly increase. */
  lemma {:induction false} ScanOrigins(os: seq<Outcome>, i: nat)
    requires Advancing(os)
    ensures forall k :: 0 <= k < |ScanFrom(os, i)| ==>
              i <= ScanFrom(os, i)[k].start && EmittedBy(os, ScanFrom(os, i)[k])
    ensures forall k :: 0 < k < |ScanFrom(os, i)| ==>
              ScanFrom(os, i)[k - 1].start < ScanFrom(os, i)[k].start
    decreases |os| - i
  {
    if i < |os| {
      var o := os[i];
      ScanOrigins(os, o.next);
      var rest := ScanFrom(os, o.next);
      if o.Accepted? {
        var t := ScanFrom(os, i);
        assert t == [Emitted(i, o.arm, o.row)] + rest;
        assert EmittedBy(os, t[0]);
        forall k | 0 < k < |t|
          ensures i <= t[k].start && EmittedBy(os, t[k])
          ensures t[k - 1].start < t[k].start
        {
          assert t[k] == rest[k - 1];
        }
      }
    }
  }

  /** A step accepts only a date line followed by a line with a balance
      amount, and the row it emits carries that line's amounts. */
  lemma StepAcceptedOrigin(lines: seq<string>, i: nat)
    requires i + 2 < |lines| && StepAt(lines, i).Accepted?
    ensures IsDateLine(lines[i])
    ensures var a := AmountsOf(lines[i + 1]);
            var row := StepAt(lines, i).row;
            a.balanca != [] && row.prefix == a.prefix && row.debi == a.debi
            && row.kredi == a.kredi && row.balanca == a.balanca
  {
  }

  /** Acceptance: an emitted row comes from a date line followed by a line
      with a balance amount, and carries that line's amounts. */
  lemma EmittedRowOrigin(lines: seq<string>, e: Emitted)
    requires EmittedBy(Outcomes(lines), e)
    ensures e.start + 2 < |lines| && IsDateLine(lines[e.start])
    ensures var a := AmountsOf(lines[e.start + 1]);
            a.balanca != [] && e.row.prefix == a.prefix && e.row.debi == a.debi
            && e.row.kredi == a.kredi && e.row.balanca == a.balanca
  {
    assert Outcomes(lines)[e.start] == StepAt(lines, e.start);
    StepAcceptedOrigin(lines, e.start);
  }

  /** Every row of the trace has a non-empty balance. */
  lemma {:induction false} TraceRowsHaveBalance(lines: seq<string>, i: nat)
    ensures var rows := RowsOf(Trace(lines, i));
            forall k :: 0 <= k < |rows| ==> rows[k].balanca != []
  {
    var t := Trace(lines, i);
    ScanOrigins(Outcomes(lines), i);
    forall k | 0 <= k < |t| ensures t[k].row.balanca != [] {
      EmittedRowOrigin(lines, t[k]);
    }
  }
}
