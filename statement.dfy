/** The text side of `process_pdf`: each page's extracted text goes through the
    header filter, the pages that still hold text are joined by newlines, and
    the transaction scan runs over the lines of the result. Reading the PDF is
    not modelled: each page arrives as the text extracted from it, or `None`
    when extraction failed and the page was skipped. */
module Statement {
  import opened Text
  import opened HeaderFilter
  import opened Transactions

  /** A page contributes to the combined text: text was extracted from it and
      something other than whitespace is left after the header filter. */
  predicate PageKept(page: Option<string>) {
    page.Some? && page.value != [] && Strip(CleanText(page.value)) != []
  }

  /** Reference definition of the page loop: the cleaned text of every kept
      page, in page order. */
  function CleanedPages(pages: seq<Option<string>>): seq<string> {
    if pages == [] then []
    else
      var last := pages[|pages| - 1];
      CleanedPages(pages[..|pages| - 1]) + (if PageKept(last) then [CleanText(last.value)] else [])
  }

  /** The combined text the transaction scan reads. */
  function CombinedText(pages: seq<Option<string>>): string {
    JoinWith("\n", CleanedPages(pages))
  }

  /** What processing a statement produces: an error for a document without
      pages, otherwise the rows and the combined text. */
  datatype Extraction = NoPages | Extracted(rows: seq<Row>, combined: string)

  /** `process_pdf` after the PDF has been opened: reject a document without
      pages, clean and combine the page texts, and scan the lines. */
  method ProcessPages(pages: seq<Option<string>>) returns (r: Extraction)
    ensures r.NoPages? <==> pages == []
    ensures r.Extracted? ==> r.combined == CombinedText(pages)
    ensures r.Extracted? ==> r.rows == RowsOf(Trace(Split(r.combined), 0))
    ensures r.Extracted? ==> forall k :: 0 <= k < |r.rows| ==> r.rows[k].balanca != []
  {
    if pages == [] {
      return NoPages;
    }
    hide Strip, CleanText;
    var allText: seq<string> := [];
    for k := 0 to |pages|
      invariant allText == CleanedPages(pages[..k])
    {
      assert pages[..k + 1][..k] == pages[..k];
      var page := pages[k];
      if page.Some? {
        var text := page.value;
        if text != [] {
          var cleaned := RemoveHeaders(text);
          if Strip(cleaned) != [] {
            allText := allText + [cleaned];
          }
        }
      }
    }
    assert pages[..|pages|] == pages;
    var combined := JoinWith("\n", allText);
    var lines := Split(combined);
    var rows := ParseTransactions(lines);
    return Extracted(rows, combined);
  }

  /** A piece of the newline-joined texts is a piece of one of them. */
  lemma {:induction false} SplitJoinedPiece(parts: seq<string>, line: string)
    requires |parts| >= 1 && line in Split(JoinWith("\n", parts))
    ensures exists k :: 0 <= k < |parts| && line in Split(parts[k])
  {
    if |parts| > 1 {
      SplitAppend(parts[0], JoinWith("\n", parts[1..]));
      if line !in Split(parts[0]) {
        SplitJoinedPiece(parts[1..], line);
        var k :| 0 <= k < |parts[1..]| && line in Split(parts[1..][k]);
        assert line in Split(parts[k + 1]);
      }
    }
  }

  /** Every cleaned page comes from a kept page. */
  lemma {:induction false} CleanedPageSource(pages: seq<Option<string>>, text: string)
    requires text in CleanedPages(pages)
    ensures exists k :: 0 <= k < |pages| && PageKept(pages[k]) && text == CleanText(pages[k].value)
  {
    var init := pages[..|pages| - 1];
    if text in CleanedPages(init) {
      CleanedPageSource(init, text);
      var k :| 0 <= k < |init| && PageKept(init[k]) && text == CleanText(init[k].value);
      assert pages[k] == init[k];
    } else {
      assert PageKept(pages[|pages| - 1]);
    }
  }

  /** The transaction scan only sees lines that passed the header filter:
      when some page was kept, every line of the combined text is non-empty,
      has no trailing whitespace, holds no boilerplate fragment and is not a
      separator rule. */
  lemma CombinedLinesAreClean(pages: seq<Option<string>>)
    requires CleanedPages(pages) != []
    ensures forall line :: line in Split(CombinedText(pages)) ==>
              line != [] && !IsSpace(line[|line| - 1]) && !HasHeader(line) && !IsSeparator(Strip(line))
  {
    var texts := CleanedPages(pages);
    forall line | line in Split(CombinedText(pages))
      ensures line != [] && !IsSpace(line[|line| - 1]) && !HasHeader(line) && !IsSeparator(Strip(line))
    {
      SplitJoinedPiece(texts, line);
      var i :| 0 <= i < |texts| && line in Split(texts[i]);
      CleanedPageSource(pages, texts[i]);
      var k :| 0 <= k < |pages| && PageKept(pages[k]) && texts[i] == CleanText(pages[k].value);
      var t := pages[k].value;
      CleanTextLines(t);
      assert Strip([]) == [];
      KeptLinesAreClean(Split(t), line);
    }
  }

  /** The text of a page, with a page whose extraction failed read as the
      empty text. */
  function PageText(page: Option<string>): string {
    if page.Some? then page.value else []
  }

  /** The text of every page, in page order. */
  function PageTexts(pages: seq<Option<string>>): (texts: seq<string>)
    ensures |texts| == |pages|
    ensures forall k :: 0 <= k < |pages| ==> texts[k] == PageText(pages[k])
  {
    if pages == [] then []
    else PageTexts(pages[..|pages| - 1]) + [PageText(pages[|pages| - 1])]
  }

  /** A page is kept exactly when its text does not clean to nothing. */
  lemma PageKeptIff(page: Option<string>)
    ensures PageKept(page) <==> CleanText(PageText(page)) != []
  {
    CleanTextOfEmpty();
    CleanTextBlank(PageText(page));
  }

  /** The combined text is empty exactly when no page was kept. */
  lemma {:induction false} CombinedTextBlank(pages: seq<Option<string>>)
    ensures CombinedText(pages) == [] <==> CleanedPages(pages) == []
  {
    var texts := CleanedPages(pages);
    if texts != [] {
      CleanedPageSource(pages, texts[0]);
      var k :| 0 <= k < |pages| && PageKept(pages[k]) && texts[0] == CleanText(pages[k].value);
      JoinWithEnds("\n", texts);
    }
  }

  /** Cleaning page by page and joining the pages that keep some text gives
      the same combined text as joining every page's text by newlines and
      cleaning the whole at once. */
  lemma {:induction false} PagewiseCleaning(pages: seq<Option<string>>)
    ensures CombinedText(pages) == CleanText(JoinWith("\n", PageTexts(pages)))
  {
    if pages == [] {
      CleanTextOfEmpty();
    } else {
      var init := pages[..|pages| - 1];
      var last := pages[|pages| - 1];
      var t := PageText(last);
      PageKeptIff(last);
      CombinedTextBlank(init);
      if init == [] {
        assert PageTexts(pages) == [t];
        assert CleanedPages(pages) == if PageKept(last) then [CleanText(t)] else [];
        if !PageKept(last) {
          CleanTextOfEmpty();
        }
      } else {
        PagewiseCleaning(init);
        JoinWithAppend("\n", PageTexts(init), [t]);
        CleanTextAppend(JoinWith("\n", PageTexts(init)), t);
        if PageKept(last) && CleanedPages(init) != [] {
          JoinWithAppend("\n", CleanedPages(init), [CleanText(t)]);
        } else if PageKept(last) {
          assert CleanedPages(pages) == [CleanText(t)];
        } else {
          assert CleanedPages(pages) == CleanedPages(init);
        }
      }
    }
  }
}
