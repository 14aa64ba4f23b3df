/** The header/noise filter `remove_headers`: drops statement boilerplate and
    separator rules from one page of extracted text. */
module HeaderFilter {
  import opened Text

  /** Boilerplate fragments; a line containing any of them is dropped. */
  const HeadersToRemove: seq<string> := [
    "NXJERRJE LLOGARIE",
    "Dega UB",
    "NUMERI I KLIENTIT:",
    "KLIENTI:",
    "ADRESA:",
    "RRUGA ",
    "NJESIA BASHKEIAKE",
    "TIRANE",
    "PERIUDHA -",
    "DATA E FILLIMIT:",
    "DATA E MBARIMIT:",
    "DATA E PRINTIMIT:",
    "LLOGARIA:",
    "FAQE NR.",
    "DATA  TIPI I TRANSAKSIONIT",
    "PERSHKRIMI               REFERENCA",
    "UNION BANK",
    "PERIUDHA                 :",
    "BALANCA E FILLIMIT",
    "-llogar"
  ]

  /** The line holds one of the boilerplate fragments. */
  predicate HasHeader(line: string) {
    exists k :: 0 <= k < |HeadersToRemove| && Contains(line, HeadersToRemove[k])
  }

  /** The separator rule `^-[-\s]{19,}$`: a hyphen followed by at least 19
      hyphens or whitespace characters and nothing else. */
  predicate IsSeparator(s: string) {
    |s| >= 20 && s[0] == '-' && forall k :: 1 <= k < |s| ==> s[k] == '-' || IsSpace(s[k])
  }

  /** The line survives the filter. */
  predicate Keep(line: string) {
    !HasHeader(line) && !IsSeparator(Strip(line)) && RStrip(line) != []
  }

  /** Reference definition of the filter on a line sequence: the surviving
      lines, right-stripped, in their original order. */
  function KeptLines(lines: seq<string>): seq<string> {
    if lines == [] then []
    else
      var last := lines[|lines| - 1];
      KeptLines(lines[..|lines| - 1]) + (if Keep(last) then [RStrip(last)] else [])
  }

  /** Reference definition of `remove_headers` on a whole text. */
  function CleanText(text: string): string {
    JoinWith("\n", KeptLines(Split(text)))
  }

  /** `remove_headers`: split into lines, drop boilerplate and separators,
      right-strip, drop empty lines and join the rest. */
  method RemoveHeaders(text: string) returns (cleanedText: string)
    ensures cleanedText == CleanText(text)
  {
    var lines := Split(text);
    var cleaned: seq<string> := [];
    for k := 0 to |lines|
      invariant cleaned == KeptLines(lines[..k])
    {
      assert lines[..k + 1][..k] == lines[..k];
      var line := lines[k];
      if HasHeader(line) {
        continue;
      }
      if IsSeparator(Strip(line)) {
        continue;
      }
      line := RStrip(line);
      if line != [] {
        cleaned := cleaned + [line];
      }
    }
    assert lines[..|lines|] == lines;
    cleanedText := JoinWith("\n", cleaned);
  }

  /** A line that passed the filter passes it again, unchanged. */
  lemma {:induction false} KeptLineIsStable(line: string)
    requires Keep(line)
    ensures Keep(RStrip(line)) && RStrip(RStrip(line)) == RStrip(line)
  {
    RStripIdempotent(line);
    RStripSpec(line);
    StripAfterRStrip(line);
    if HasHeader(RStrip(line)) {
      var k :| 0 <= k < |HeadersToRemove| && Contains(RStrip(line), HeadersToRemove[k]);
      ContainsInPrefix(RStrip(line), line, HeadersToRemove[k]);
    }
  }

  /** `out` is the right-stripped form of the kept input line `lines[k]`. */
  ghost predicate KeptFrom(lines: seq<string>, k: int, out: string) {
    0 <= k < |lines| && Keep(lines[k]) && out == RStrip(lines[k])
  }

  /** Membership, both ways: an output line is exactly the right-stripped form of
      some input line that the filter keeps. */
  lemma {:induction false} KeptLinesMembership(lines: seq<string>, out: string)
    ensures out in KeptLines(lines) <==> exists k :: KeptFrom(lines, k, out)
  {
    if out in KeptLines(lines) {
      KeptLineHasSource(lines, out);
    }
    if exists k :: KeptFrom(lines, k, out) {
      var k :| KeptFrom(lines, k, out);
      KeptSourceIsOutput(lines, k, out);
    }
  }

  lemma {:induction false} KeptLineHasSource(lines: seq<string>, out: string)
    requires out in KeptLines(lines)
    ensures exists k :: KeptFrom(lines, k, out)
  {
    var init := lines[..|lines| - 1];
    var last := lines[|lines| - 1];
    if out in KeptLines(init) {
      KeptLineHasSource(init, out);
      var k :| KeptFrom(init, k, out);
      assert KeptFrom(lines, k, out);
    } else {
      assert KeptFrom(lines, |lines| - 1, out);
    }
  }

  lemma {:induction false} KeptSourceIsOutput(lines: seq<string>, k: int, out: string)
    requires KeptFrom(lines, k, out)
    ensures out in KeptLines(lines)
  {
    var init := lines[..|lines| - 1];
    if k < |init| {
      assert KeptFrom(init, k, out);
      KeptSourceIsOutput(init, k, out);
    }
  }

  /** Every output line is non-empty, has no trailing whitespace, holds no
      boilerplate fragment, and is not a separator rule. */
  lemma {:induction false} KeptLinesAreClean(lines: seq<string>, out: string)
    requires out in KeptLines(lines)
    ensures out != [] && !IsSpace(out[|out| - 1])
    ensures !HasHeader(out) && !IsSeparator(Strip(out))
  {
    KeptLinesMembership(lines, out);
    var k :| KeptFrom(lines, k, out);
    KeptLineIsStable(lines[k]);
  }

  /** The filter works line by line: filtering two runs of lines separately and
      concatenating gives the same lines, in the same order, as filtering them
      together. */
  lemma {:induction false} KeptLinesAppend(a: seq<string>, b: seq<string>)
    ensures KeptLines(a + b) == KeptLines(a) + KeptLines(b)
  {
    if b != [] {
      var init := b[..|b| - 1];
      KeptLinesAppend(a, init);
      assert (a + b)[..|a + b| - 1] == a + init;
      assert (a + b)[|a + b| - 1] == b[|b| - 1];
    } else {
      assert a + b == a;
    }
  }

  /** Filtering already filtered lines changes nothing. */
  lemma {:induction false} KeptLinesIdempotent(lines: seq<string>)
    ensures KeptLines(KeptLines(lines)) == KeptLines(lines)
  {
    if lines != [] {
      var init := lines[..|lines| - 1];
      var last := lines[|lines| - 1];
      KeptLinesIdempotent(init);
      KeptLinesAppend(KeptLines(init), if Keep(last) then [RStrip(last)] else []);
      if Keep(last) {
        KeptLineIsStable(last);
        assert KeptLines([RStrip(last)]) == KeptLines([]) + [RStrip(last)] by {
          assert [RStrip(last)][..0] == [];
        }
      }
    }
  }

  /** Filtering keeps every line free of newlines when the input lines are. */
  lemma {:induction false} KeptLinesNoNewline(lines: seq<string>)
    requires forall k :: 0 <= k < |lines| ==> '\n' !in lines[k]
    ensures forall k :: 0 <= k < |KeptLines(lines)| ==> '\n' !in KeptLines(lines)[k]
  {
    if lines != [] {
      KeptLinesNoNewline(lines[..|lines| - 1]);
      var last := lines[|lines| - 1];
      RStripSpec(last);
      assert forall c :: c in RStrip(last) ==> c in last;
    }
  }

  /** The lines of the cleaned text are exactly the kept lines (the empty
      cleaned text splits into one empty line). */
  lemma {:induction false} CleanTextLines(text: string)
    ensures KeptLines(Split(text)) != [] ==> Split(CleanText(text)) == KeptLines(Split(text))
    ensures KeptLines(Split(text)) == [] ==> CleanText(text) == []
  {
    KeptLinesNoNewline(Split(text));
    if KeptLines(Split(text)) != [] {
      SplitJoin(KeptLines(Split(text)));
    }
  }

  /** `remove_headers` is idempotent: cleaning cleaned text returns it unchanged. */
  lemma {:induction false} CleanTextIdempotent(text: string)
    ensures CleanText(CleanText(text)) == CleanText(text)
  {
    var kept := KeptLines(Split(text));
    CleanTextLines(text);
    if kept != [] {
      KeptLinesIdempotent(Split(text));
    } else {
      CleanTextOfEmpty();
    }
  }

  /** The cleaned text is empty exactly when no line survives; otherwise it
      ends with a non-whitespace character, so it does not strip to nothing. */
  lemma {:induction false} CleanTextBlank(text: string)
    ensures CleanText(text) == [] <==> KeptLines(Split(text)) == []
    ensures CleanText(text) != [] ==> Strip(CleanText(text)) != []
  {
    var kept := KeptLines(Split(text));
    if kept != [] {
      var last := kept[|kept| - 1];
      KeptLinesAreClean(Split(text), last);
      JoinWithEnds("\n", kept);
      var cleaned := CleanText(text);
      assert cleaned[|cleaned| - 1] == last[|last| - 1];
      StripOfSolidEnd(cleaned);
    }
  }

  /** Cleaning the empty text gives the empty text. */
  lemma CleanTextOfEmpty()
    ensures CleanText([]) == []
  {
    var empty: seq<string> := [[]];
    assert Split([]) == empty;
    assert KeptLines(empty) == [] by {
      assert !Keep([]);
      assert empty[..0] == [];
    }
  }

  /** Cleaning two texts joined by a newline gives their cleaned texts joined
      by a newline, where a text that cleans to nothing contributes nothing. */
  lemma {:induction false} CleanTextAppend(a: string, b: string)
    ensures CleanText(a + "\n" + b) ==
              if CleanText(a) == [] then CleanText(b)
              else if CleanText(b) == [] then CleanText(a)
              else CleanText(a) + "\n" + CleanText(b)
  {
    var kept := KeptLines(Split(a));
    var keptB := KeptLines(Split(b));
    SplitAppend(a, b);
    KeptLinesAppend(Split(a), Split(b));
    CleanTextBlank(a);
    CleanTextBlank(b);
    if kept == [] {
      assert kept + keptB == keptB;
    } else if keptB == [] {
      assert kept + keptB == kept;
    } else {
      JoinWithAppend("\n", kept, keptB);
    }
  }
}
