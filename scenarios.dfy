/** Worked statements: small documents in the layouts the transaction scan
    recognises, with the rows the scan emits for them. */
module Scenarios {
  import opened Text
  import opened FieldExtract
  import opened AmountParse
  import opened Transactions

  const FirstDate: string := "01-JAN-2024"
  const SecondDate: string := "02-JAN-2024"

  /** `n` blanks, to place an amount at column `n`. */
  function Spaces(n: nat): (s: string)
    ensures |s| == n && forall k :: 0 <= k < n ==> s[k] == ' '
  {
    seq(n, k => ' ')
  }

  /** Column classification: an amount placed alone on a line so that it starts
      at column `c` lands in the band of `c` (debit from 60, credit from 80,
      balance from 100), and the other bands stay empty. */
  lemma {:induction false} ClassifyByColumn(c: nat, amount: string)
    requires IsAmountText(amount)
    ensures var a := AmountsOf(Spaces(c) + amount);
            a.prefix == []
            && a.balanca == (if c >= 100 then RemoveCommas(amount) else [])
            && a.kredi == (if 80 <= c < 100 then RemoveCommas(amount) else [])
            && a.debi == (if 60 <= c < 80 then RemoveCommas(amount) else [])
  {
    var line := Spaces(c) + amount;
    var m := Match(c, amount);
    FindAmountsOfPadded(c, amount);
    assert line[..c] == Spaces(c);
    StripOfBlank(Spaces(c));
    FieldForSingle(m, Debit);
    FieldForSingle(m, Credit);
    FieldForSingle(m, Balance);
    assert AmountsOf(line) ==
           Amounts([], FieldFor([m], Debit), FieldFor([m], Credit), FieldFor([m], Balance));
  }

  /** The only match on a line of `c` blanks and one amount is that amount at
      column `c`. */
  lemma {:induction false} FindAmountsOfPadded(c: nat, amount: string)
    requires IsAmountText(amount)
    ensures FindAmounts(Spaces(c) + amount, 0) == [Match(c, amount)]
  {
    hide FindAmounts, AmountLenAt, AmountRun;
    var line := Spaces(c) + amount;
    SkipBlanks(line, 0, c);
    assert line[c..] == amount;
    AmountRunOfAmount(line, c, amount);
    assert line[c..c + |amount|] == amount;
    LastAmount(line, c, |amount|);
  }

  /** An amount line whose only amount, `1,250.00`, starts at column 100. */
  const BalanceLine: string := Spaces(100) + "1,250.00"

  /** An amount line whose only amount, `75.00`, starts at column 100. */
  const SmallBalanceLine: string := Spaces(100) + "75.00"

  /** Removing the thousands separator from `1,250.00`. */
  lemma RemoveCommasOfBalance()
    ensures RemoveCommas("1,250.00") == "1250.00"
  {
    assert "1,250.00" == "1," + "250.00";
    assert "1250.00" == "1" + "250.00";
    RemoveCommasAppend("1,", "250.00");
    RemoveCommasOfPlain("250.00");
    assert RemoveCommas("1,") == "1" by {
      assert "1,"[..1] == "1";
      RemoveCommasOfPlain("1");
    }
  }

  /** Both amount lines carry a balance and nothing else. */
  lemma BalanceLines()
    ensures AmountsOf(BalanceLine) == Amounts("", "", "", "1250.00")
    ensures AmountsOf(SmallBalanceLine) == Amounts("", "", "", "75.00")
  {
    hide AmountsOf, RemoveCommas;
    assert IsAmountText("1,250.00");
    assert IsAmountText("75.00");
    ClassifyByColumn(100, "1,250.00");
    ClassifyByColumn(100, "75.00");
    RemoveCommasOfBalance();
    RemoveCommasOfPlain("75.00");
  }

  /** The label condition on values: a value that starts and ends with a
      non-whitespace character and holds no newline. */
  predicate SolidValue(value: string) {
    value != [] && !IsSpace(value[0]) && !IsSpace(value[|value| - 1]) && '\n' !in value
  }

  /** `name: value`, with a solid value, reads back as `value`. */
  lemma LabelReads(line: string, name: string, value: string)
    requires line == name + ": " + value && SolidValue(value)
    ensures ExtractField(name, line) == value
  {
    hide ExtractField;
    ExtractFieldOfLabelledLine([], name, " ", value);
    assert [] + name + ":" + " " + value == line;
    assert RStrip(value) == value;
  }

  /** Both dates open a transaction line. */
  lemma DateLines()
    ensures IsDateLine(FirstDate) && IsDateLine(SecondDate)
  {
  }

  /** A description line `Detajet: value` carries the label and reads back
      as `value`. */
  lemma DescriptionLine(line: string, value: string)
    requires line == "Detajet: " + value && SolidValue(value)
    ensures HasDescriptionLabel(line) && DescriptionValue(line) == value
  {
    hide ExtractField;
    assert OccursAt(line, "Detajet:", 0);
    LabelReads(line, "Detajet", value);
  }

  /** A beneficiary line `Perfituesi: value` carries the label and reads back
      as `value`. */
  lemma BeneficiaryLine(line: string, value: string)
    requires line == "Perfituesi: " + value && SolidValue(value)
    ensures HasBeneficiaryLabel(line) && BeneficiaryValue(line) == value
  {
    hide ExtractField;
    assert OccursAt(line, "Perfituesi:", 0);
    LabelReads(line, "Perfituesi", value);
  }

  /** A line that does not start with a digit or whitespace is not a date
      line, and it strips to itself when it does not end in whitespace. */
  lemma PlainLine(line: string)
    requires line != [] && !IsSpace(line[0]) && !IsDigit(line[0]) && !IsSpace(line[|line| - 1])
    ensures Strip(line) == line && !IsDateLine(line)
  {
    StripOfSolidStart(line);
  }

  /** Without a `P` and an `M` the line holds no beneficiary label. */
  lemma NoBeneficiaryLabel(line: string)
    requires 'P' !in line && 'M' !in line
    ensures !HasBeneficiaryLabel(line)
  {
    MissingCharExcludes(line, "Perfituesi:", 'P');
    MissingCharExcludes(line, "Me Urdher Te:", 'M');
  }

  /** Without a `D` the line holds no description label. */
  lemma NoDescriptionLabel(line: string)
    requires 'D' !in line
    ensures !HasDescriptionLabel(line)
  {
    MissingCharExcludes(line, "Detajet:", 'D');
    MissingCharExcludes(line, "Detaj et:", 'D');
  }

  /** A card payment: the four lines after the description are read as
      reference, card number, date/time and terminal, and the scan resumes
      seven lines after the start. */
  lemma PosBlock()
    ensures var lines := [FirstDate, BalanceLine, "Detajet: Blerje", "Referenca: 123",
                          "Nr i Kartes: 4561", "Data/Ora: 10:00", "Terminali: ATM1"];
            StepAt(lines, 0).next == 7
            && RowsOf(Trace(lines, 0)) == [Row("", "Blerje", "", "123", "4561", "10:00", "ATM1", "", "", "1250.00")]
  {
    var lines := [FirstDate, BalanceLine, "Detajet: Blerje", "Referenca: 123",
                  "Nr i Kartes: 4561", "Data/Ora: 10:00", "Terminali: ATM1"];
    hide ExtractField, IsDateLine, HasBeneficiaryLabel, HasDescriptionLabel, AmountsOf, DescriptionValue, Strip;
    BalanceLines();
    DateLines();
    DescriptionLine(lines[2], "Blerje");
    LabelReads(lines[3], "Referenca", "123");
    LabelReads(lines[4], "Nr i Kartes", "4561");
    LabelReads(lines[5], "Data/Ora", "10:00");
    LabelReads(lines[6], "Terminali", "ATM1");
    NoBeneficiaryLabel(lines[3]);
    PlainLine(lines[3]);
    assert OpensTransaction(lines, 0);
    assert FindDescription(lines, 0) == Found(2, "Blerje");
    StepStructuredPos(lines, 0);
    TraceAccepted(lines, 0);
    assert Trace(lines, 7) == [];
  }

  /** A transfer whose beneficiary runs over three lines. */
  const TransferLines: seq<string> :=
    [FirstDate, BalanceLine, "Detajet: Transfer", "Perfituesi: John", "Doe", "Account X", SecondDate]

  /** The continuation of the beneficiary: the two lines before the next
      date line, stripped. */
  lemma TransferContinuation()
    ensures NextDate(TransferLines, 4) == 6
    ensures Continuation(TransferLines, 4) == ["Doe", "Account X"]
  {
    var lines := TransferLines;
    hide IsDateLine, Strip;
    DateLines();
    PlainLine(lines[4]);
    PlainLine(lines[5]);
    assert NextDate(lines, 6) == 6;
    assert NextDate(lines, 5) == 6;
  }

  /** A transfer: the beneficiary value and every following line up to the
      next date line are joined by single spaces, and the scan resumes at that
      date line. */
  lemma BeneficiaryBlock()
    ensures StepAt(TransferLines, 0).next == 6
    ensures RowsOf(Trace(TransferLines, 0)) ==
              [Row("", "Transfer", "John Doe Account X", "", "", "", "", "", "", "1250.00")]
  {
    var lines := TransferLines;
    hide ExtractField, IsDateLine, HasBeneficiaryLabel, HasDescriptionLabel, AmountsOf, DescriptionValue,
      BeneficiaryValue, Strip, Continuation, NextDate;
    BalanceLines();
    DateLines();
    DescriptionLine(lines[2], "Transfer");
    BeneficiaryLine(lines[3], "John");
    TransferContinuation();
    assert OpensTransaction(lines, 0);
    assert FindDescription(lines, 0) == Found(2, "Transfer");
    StepBeneficiary(lines, 0);
    assert JoinWith(" ", ["John", "Doe", "Account X"]) == "John Doe Account X";
    TraceAccepted(lines, 0);
    assert Trace(lines, 6) == [];
  }

  /** A document with two transactions: a description followed at once by
      the next date line, then a fee without a description. */
  const TwoTransactionLines: seq<string> :=
    [FirstDate, BalanceLine, "Detajet: Tarife", SecondDate, SmallBalanceLine, "Komisione", "Tarife mujore"]

  /** A description followed at once by the next date line: the cursor stops
      on that date line. */
  lemma ImmediateNextDateStep()
    ensures StepAt(TwoTransactionLines, 0) ==
              Accepted(ImmediateNextDate, Row("", "Tarife", "", "", "", "", "", "", "", "1250.00"), 3)
  {
    var lines := TwoTransactionLines;
    hide ExtractField, IsDateLine, HasBeneficiaryLabel, HasDescriptionLabel, AmountsOf, DescriptionValue, Strip;
    BalanceLines();
    DateLines();
    DescriptionLine(lines[2], "Tarife");
    NoBeneficiaryLabel(lines[3]);
    assert OpensTransaction(lines, 0);
    assert FindDescription(lines, 0) == Found(2, "Tarife");
    StepImmediateNextDate(lines, 0);
  }

  /** A transaction without a description: its amounts alone, and the cursor
      runs to the end of the document, where no date line follows. */
  lemma NoDescriptionStep()
    ensures StepAt(TwoTransactionLines, 3) ==
              Accepted(NoDescription, Row("", "", "", "", "", "", "", "", "", "75.00"), 7)
  {
    var lines := TwoTransactionLines;
    hide ExtractField, IsDateLine, HasBeneficiaryLabel, HasDescriptionLabel, AmountsOf, DescriptionValue, Strip;
    BalanceLines();
    DateLines();
    NoDescriptionLabel(lines[5]);
    NoDescriptionLabel(lines[6]);
    PlainLine(lines[5]);
    PlainLine(lines[6]);
    assert OpensTransaction(lines, 3);
    assert FindDescription(lines, 3) == Absent;
    assert NextDate(lines, 6) == 7;
    assert NextDate(lines, 5) == 7;
    StepNoDescription(lines, 3);
  }

  /** Both rows are emitted, in document order. */
  lemma TwoTransactions()
    ensures RowsOf(Trace(TwoTransactionLines, 0)) ==
              [Row("", "Tarife", "", "", "", "", "", "", "", "1250.00"),
               Row("", "", "", "", "", "", "", "", "", "75.00")]
  {
    hide StepAt;
    ImmediateNextDateStep();
    NoDescriptionStep();
    TraceAccepted(TwoTransactionLines, 0);
    TraceAccepted(TwoTransactionLines, 3);
    assert Trace(TwoTransactionLines, 7) == [];
  }
}
