/** `PDFReader`: reads the text of a PDF page by page, normalises its
    whitespace, truncates it, searches it for terms and extracts chosen
    pages. The PDF library is an oracle: a document is the sequence of what
    `page.extract_text()` gave for each page, or the error opening it raised.
    Metadata extraction is not part of this model. */
module PdfReader {
  import opened Wrappers
  import opened Text
  import opened TermSearch

  /** What `page.extract_text()` gave for one page. */
  datatype PageText = Extracted(text: string) | ExtractionFailed(error: string)

  /** One entry of `page_texts` or `extracted_pages`. */
  datatype PageEntry = PageEntry(pageNumber: int, text: string, length: nat, error: Option<string>)

  /** The successful answer of `read_pdf` and `read_pdf_from_bytes`. */
  datatype PdfContent = PdfContent(
    content: string,
    pageCount: nat,
    pageTexts: seq<PageEntry>,
    contentLength: nat,
    totalPagesProcessed: nat)

  // ---------------------------------------------------------------------------
  // The page loop of read_pdf

  /** A page the read loop records: one with text, or one whose extraction raised. */
  predicate Recorded(p: PageText) {
    p.ExtractionFailed? || p.text != ""
  }

  /** What the read loop records for page `n` (1-based). */
  function EntryFor(n: int, p: PageText): seq<PageEntry> {
    match p
    case Extracted(t) => if t == "" then [] else [PageEntry(n, t, |t|, None)]
    case ExtractionFailed(e) => [PageEntry(n, "", 0, Some(e))]
  }

  /** What the read loop adds to `full_text` for one page. */
  function TextOf(p: PageText): string {
    match p
    case Extracted(t) => if t == "" then "" else t + "\n"
    case ExtractionFailed(_) => ""
  }

  /** `page_texts` after the loop has seen `pages`. */
  function PageEntries(pages: seq<PageText>): seq<PageEntry> {
    if pages == [] then [] else PageEntries(pages[..|pages| - 1]) + EntryFor(|pages|, pages[|pages| - 1])
  }

  /** `full_text` after the loop has seen `pages`. */
  function FullText(pages: seq<PageText>): string {
    if pages == [] then "" else FullText(pages[..|pages| - 1]) + TextOf(pages[|pages| - 1])
  }

  /** Each entry of `page_texts` is what the loop records for the page it
      names, a page of the document counted from 1. */
  lemma {:induction false} EntriesNumbered(pages: seq<PageText>)
    ensures var es := PageEntries(pages);
            forall j :: 0 <= j < |es| ==>
              1 <= es[j].pageNumber <= |pages| && EntryFor(es[j].pageNumber, pages[es[j].pageNumber - 1]) == [es[j]]
  {
    if pages != [] {
      var init := pages[..|pages| - 1];
      EntriesNumbered(init);
      var es := PageEntries(pages);
      assert es == PageEntries(init) + EntryFor(|pages|, pages[|pages| - 1]);
      forall j | 0 <= j < |es|
        ensures 1 <= es[j].pageNumber <= |pages| && EntryFor(es[j].pageNumber, pages[es[j].pageNumber - 1]) == [es[j]]
      {
        if j < |PageEntries(init)| {
          assert init[es[j].pageNumber - 1] == pages[es[j].pageNumber - 1];
        }
      }
    }
  }

  /** `page_texts` is in strictly increasing page order. */
  lemma {:induction false} EntriesOrdered(pages: seq<PageText>)
    ensures var es := PageEntries(pages);
            forall i, j :: 0 <= i < j < |es| ==> es[i].pageNumber < es[j].pageNumber
  {
    if pages != [] {
      var init := pages[..|pages| - 1];
      EntriesOrdered(init);
      EntriesNumbered(init);
      assert PageEntries(pages) == PageEntries(init) + EntryFor(|pages|, pages[|pages| - 1]);
    }
  }

  /** Every page with text, and every page whose extraction raised, has an
      entry in `page_texts`. */
  lemma {:induction false} EntriesComplete(pages: seq<PageText>, k: nat)
    requires k < |pages| && Recorded(pages[k])
    ensures exists j :: 0 <= j < |PageEntries(pages)| && PageEntries(pages)[j].pageNumber == k + 1
  {
    var init := pages[..|pages| - 1];
    var es := PageEntries(pages);
    assert es == PageEntries(init) + EntryFor(|pages|, pages[|pages| - 1]);
    if k == |pages| - 1 {
      assert es[|es| - 1].pageNumber == k + 1;
    } else {
      assert init[k] == pages[k];
      EntriesComplete(init, k);
      var j :| 0 <= j < |PageEntries(init)| && PageEntries(init)[j].pageNumber == k + 1;
      assert es[j].pageNumber == k + 1;
    }
  }

  /** One turn of the read loop: page `i + 1` extends what the earlier pages gave. */
  lemma ReadStep(pages: seq<PageText>, i: nat)
    requires i < |pages|
    ensures PageEntries(pages[..i + 1]) == PageEntries(pages[..i]) + EntryFor(i + 1, pages[i])
    ensures FullText(pages[..i + 1]) == FullText(pages[..i]) + TextOf(pages[i])
  {
    assert pages[..i + 1][..i] == pages[..i];
  }

  /** The page loop: `page_texts` and `full_text`. */
  method ReadPages(pages: seq<PageText>) returns (pageTexts: seq<PageEntry>, fullText: string)
    ensures pageTexts == PageEntries(pages) && fullText == FullText(pages)
  {
    pageTexts := [];
    fullText := "";
    var i := 0;
    while i < |pages|
      invariant 0 <= i <= |pages|
      invariant pageTexts == PageEntries(pages[..i]) && fullText == FullText(pages[..i])
    {
      ReadStep(pages, i);
      match pages[i] {
        case Extracted(t) =>
          if t != "" {
            pageTexts := pageTexts + [PageEntry(i + 1, t, |t|, None)];
            fullText := fullText + t + "\n";
          }
        case ExtractionFailed(e) =>
          pageTexts := pageTexts + [PageEntry(i + 1, "", 0, Some(e))];
      }
      i := i + 1;
    }
    assert pages[..i] == pages;
  }

  // ---------------------------------------------------------------------------
  // read_pdf and read_pdf_from_bytes

  /** The answer built once the pages have been read: the full text is
      cleaned and then truncated to `max_length` characters plus "...". */
  function Assemble(pages: seq<PageText>, maxLength: int): PdfContent {
    var content := Truncate(CleanText(FullText(pages)), maxLength);
    var entries := PageEntries(pages);
    PdfContent(content, |pages|, entries, |content|, |entries|)
  }

  /** The content is the cleaned text when it fits, and otherwise its first
      `max_length` characters plus "..."; either way `content_length` is at
      most `max_length + 3`, and `total_pages_processed` never exceeds
      `page_count`. */
  lemma AssembleBounds(pages: seq<PageText>, maxLength: int)
    requires maxLength >= 0
    ensures var c := Assemble(pages, maxLength);
            var cleaned := CleanText(FullText(pages));
            && c.contentLength == |c.content| <= maxLength + 3
            && (|cleaned| <= maxLength ==> c.content == cleaned && Normalized(c.content))
            && (|cleaned| > maxLength ==> c.content == cleaned[..maxLength] + "...")
            && c.totalPagesProcessed <= c.pageCount
  {
    TruncateShape(CleanText(FullText(pages)), maxLength);
    CleanTextNormalized(FullText(pages));
    EntriesAtMostPages(pages);
  }

  lemma {:induction false} EntriesAtMostPages(pages: seq<PageText>)
    ensures |PageEntries(pages)| <= |pages|
  {
    if pages != [] {
      EntriesAtMostPages(pages[..|pages| - 1]);
    }
  }

  /** The part both readers share once the document is open. */
  method ReadOpened(pages: seq<PageText>, maxLength: int) returns (c: PdfContent)
    ensures c == Assemble(pages, maxLength)
  {
    var pageTexts, fullText := ReadPages(pages);
    var content := Truncate(CleanText(fullText), maxLength);
    c := PdfContent(content, |pages|, pageTexts, |content|, |pageTexts|);
  }

  /** `read_pdf`: a missing file or a name not ending in ".pdf" (in any
      case) fails before the PDF is opened; `document` is what opening it gave. */
  method ReadPdf(filePath: string, maxLength: int, fileExists: bool, document: Result<seq<PageText>, string>)
    returns (r: Result<PdfContent, string>)
    ensures !fileExists ==> r == Err("File not found: " + filePath)
    ensures fileExists && !EndsWith(Lower(filePath), ".pdf") ==> r == Err("File is not a PDF")
    ensures fileExists && EndsWith(Lower(filePath), ".pdf") ==>
              r == match document
                   case Err(e) => Err("Failed to read PDF: " + e)
                   case Ok(pages) => Ok(Assemble(pages, maxLength))
  {
    if !fileExists {
      return Err("File not found: " + filePath);
    }
    if !EndsWith(Lower(filePath), ".pdf") {
      return Err("File is not a PDF");
    }
    match document {
      case Err(e) =>
        r := Err("Failed to read PDF: " + e);
      case Ok(pages) =>
        var c := ReadOpened(pages, maxLength);
        r := Ok(c);
    }
  }

  /** `read_pdf_from_bytes`: the same reading, with no file checks. */
  method ReadPdfFromBytes(maxLength: int, document: Result<seq<PageText>, string>) returns (r: Result<PdfContent, string>)
    ensures r == match document
                 case Err(e) => Err("Failed to read PDF from bytes: " + e)
                 case Ok(pages) => Ok(Assemble(pages, maxLength))
  {
    match document {
      case Err(e) =>
        r := Err("Failed to read PDF from bytes: " + e);
      case Ok(pages) =>
        var c := ReadOpened(pages, maxLength);
        r := Ok(c);
    }
  }

  // ---------------------------------------------------------------------------
  // search_pdf_content

  /** The successful answer of `search_pdf_content`. */
  datatype PdfSearch = PdfSearch(
    searchResults: map<string, TermResult>,
    totalTermsSearched: nat,
    termsFound: nat,
    pageCount: nat)

  /** `search_pdf_content`: a failed read is returned as it is; otherwise
      every term is looked up in the read content with a 300-character
      context window. */
  method SearchPdfContent(filePath: string, terms: seq<string>, maxLength: int, fileExists: bool,
                          document: Result<seq<PageText>, string>)
    returns (r: Result<PdfSearch, string>)
    ensures !fileExists ==> r == Err("File not found: " + filePath)
    ensures fileExists && !EndsWith(Lower(filePath), ".pdf") ==> r == Err("File is not a PDF")
    ensures fileExists && EndsWith(Lower(filePath), ".pdf") && document.Err? ==> r == Err("Failed to read PDF: " + document.error)
    ensures r.Ok? <==> fileExists && EndsWith(Lower(filePath), ".pdf") && document.Ok?
    ensures r.Ok? ==>
              var c := Assemble(document.value, maxLength);
              && r.value.searchResults.Keys == (set t | t in terms)
              && (forall t :: t in r.value.searchResults ==> r.value.searchResults[t] == SearchTerm(c.content, t, 300))
              && r.value.totalTermsSearched == |terms|
              && r.value.termsFound == FoundCount(r.value.searchResults) <= |terms|
              && r.value.pageCount == c.pageCount
  {
    var read := ReadPdf(filePath, maxLength, fileExists, document);
    match read {
      case Err(e) =>
        r := Err(e);
      case Ok(c) =>
        var results, found := SearchTerms(c.content, terms, 300);
        r := Ok(PdfSearch(results, |terms|, found, c.pageCount));
    }
  }

  // ---------------------------------------------------------------------------
  // extract_pdf_pages

  /** The successful answer of `extract_pdf_pages`. */
  datatype Extraction = Extraction(
    extractedPages: seq<PageEntry>,
    totalPagesInPdf: nat,
    pagesRequested: nat,
    pagesExtracted: nat,
    invalidPages: seq<int>)

  /** `list(range(1, total + 1))`. */
  function AllPages(total: nat): (ps: seq<int>)
    ensures |ps| == total && forall i :: 0 <= i < total ==> ps[i] == i + 1
  {
    seq(total, i => i + 1)
  }

  /** The page numbers asked for: all of them when none are given. */
  function Requested(pageNumbers: Option<seq<int>>, total: nat): seq<int> {
    match pageNumbers
    case None => AllPages(total)
    case Some(ps) => ps
  }

  predicate InRange(p: int, total: nat) {
    1 <= p <= total
  }

  /** `[p for p in page_numbers if 1 <= p <= total_pages]`. */
  function ValidPages(ps: seq<int>, total: nat): seq<int> {
    if ps == [] then []
    else (if InRange(ps[0], total) then [ps[0]] else []) + ValidPages(ps[1..], total)
  }

  /** `[p for p in page_numbers if p < 1 or p > total_pages]`. */
  function InvalidPages(ps: seq<int>, total: nat): seq<int> {
    if ps == [] then []
    else (if InRange(ps[0], total) then [] else [ps[0]]) + InvalidPages(ps[1..], total)
  }

  /** Every requested page lands in exactly one of the valid and invalid
      lists (`PagesPartition`), the valid ones all inside the document and
      the invalid ones all outside it (`PagesSides`). */
  lemma {:induction false} PagesPartition(ps: seq<int>, total: nat)
    ensures |ValidPages(ps, total)| + |InvalidPages(ps, total)| == |ps|
    ensures multiset(ValidPages(ps, total)) + multiset(InvalidPages(ps, total)) == multiset(ps)
  {
    if ps != [] {
      PagesPartition(ps[1..], total);
      assert ps == [ps[0]] + ps[1..];
    }
  }

  lemma {:induction false} PagesSides(ps: seq<int>, total: nat)
    ensures forall p :: p in ValidPages(ps, total) ==> InRange(p, total)
    ensures forall p :: p in InvalidPages(ps, total) ==> !InRange(p, total)
  {
    if ps != [] {
      PagesSides(ps[1..], total);
    }
  }

  /** With no page numbers, every page of the document is extracted and
      none is invalid. */
  lemma AllPagesValid(total: nat)
    ensures ValidPages(AllPages(total), total) == AllPages(total)
    ensures InvalidPages(AllPages(total), total) == []
  {
    AllInRange(AllPages(total), total);
  }

  lemma {:induction false} AllInRange(ps: seq<int>, total: nat)
    requires forall i :: 0 <= i < |ps| ==> InRange(ps[i], total)
    ensures ValidPages(ps, total) == ps && InvalidPages(ps, total) == []
  {
    if ps != [] {
      AllInRange(ps[1..], total);
    }
  }

  /** The entry `extract_pdf_pages` records for a valid page; unlike the
      read loop it keeps a page with empty text. */
  function ExtractedEntry(p: int, pages: seq<PageText>): PageEntry
    requires InRange(p, |pages|)
  {
    match pages[p - 1]
    case Extracted(t) => PageEntry(p, t, |t|, None)
    case ExtractionFailed(e) => PageEntry(p, "", 0, Some(e))
  }

  /** `extract_pdf_pages`: a missing file fails before the PDF is opened;
      otherwise one entry per valid requested page, in request order. */
  method ExtractPdfPages(filePath: string, pageNumbers: Option<seq<int>>, fileExists: bool,
                         document: Result<seq<PageText>, string>)
    returns (r: Result<Extraction, string>)
    ensures !fileExists ==> r == Err("File not found: " + filePath)
    ensures fileExists && document.Err? ==> r == Err("Failed to extract PDF pages: " + document.error)
    ensures fileExists && document.Ok? ==>
              var pages := document.value;
              var requested := Requested(pageNumbers, |pages|);
              var valid := ValidPages(requested, |pages|);
              && r.Ok?
              && r.value.totalPagesInPdf == |pages|
              && r.value.pagesRequested == |requested|
              && r.value.invalidPages == InvalidPages(requested, |pages|)
              && r.value.pagesExtracted == |valid| == |r.value.extractedPages|
              && (forall p :: p in valid ==> InRange(p, |pages|))
              && forall j :: 0 <= j < |valid| ==> r.value.extractedPages[j] == ExtractedEntry(valid[j], pages)
  {
    if !fileExists {
      return Err("File not found: " + filePath);
    }
    if document.Err? {
      return Err("Failed to extract PDF pages: " + document.error);
    }
    var pages := document.value;
    var total := |pages|;
    var requested := Requested(pageNumbers, total);
    var valid := ValidPages(requested, total);
    var invalid := InvalidPages(requested, total);
    assert forall p :: p in valid ==> InRange(p, total) by {
      PagesSides(requested, total);
    }
    var extracted: seq<PageEntry> := [];
    var i := 0;
    while i < |valid|
      invariant 0 <= i <= |valid|
      invariant |extracted| == i
      invariant forall j :: 0 <= j < i ==> extracted[j] == ExtractedEntry(valid[j], pages)
    {
      var p := valid[i];
      assert p in valid;
      match pages[p - 1] {
        case Extracted(t) =>
          extracted := extracted + [PageEntry(p, t, |t|, None)];
        case ExtractionFailed(e) =>
          extracted := extracted + [PageEntry(p, "", 0, Some(e))];
      }
      i := i + 1;
    }
    r := Ok(Extraction(extracted, total, |requested|, |extracted|, invalid));
  }
}
