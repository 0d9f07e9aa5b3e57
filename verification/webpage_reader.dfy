/** `WebpageReader`: fetches a web page, picks its main content, normalises
    and truncates the text, searches it for terms and lists its links. The
    HTTP client, the HTML parser and `urlparse`/`urljoin` are oracles: their
    answers are parameters. Page metadata is not part of this model. */
module WebpageReader {
  import opened Wrappers
  import opened Text
  import opened TermSearch

  /** The parts of `urlparse(url)` the reader looks at. */
  datatype ParsedUrl = ParsedUrl(scheme: string, netloc: string)

  /** A parsed page once scripts, styles, navigation, footers and headers
      are removed: the text of its `<title>` if it has one, for each
      main-content selector in order the text of the first element it
      selects (if any), the text of `<body>` if present, and the text of
      the whole document. */
  datatype Page = Page(
    title: Option<string>,
    selectorMatches: seq<Option<string>>,
    body: Option<string>,
    wholeText: string)

  /** How fetching the page ended. */
  datatype Fetch =
    | Fetched(statusCode: int, page: Page)
    | TimedOut
    | StatusError(statusCode: int, reason: string)
    | Failed(error: string)

  /** The successful answer of `read_webpage`. */
  datatype Webpage = Webpage(url: string, title: string, content: string, contentLength: nat, statusCode: int)

  /** `urlparse` found both a scheme and a network location. */
  predicate WellFormed(parsed: ParsedUrl) {
    parsed.scheme != "" && parsed.netloc != ""
  }

  /** The title text, stripped, or "No title found". */
  function TitleText(p: Page): string {
    match p.title
    case Some(t) => Strip(t)
    case None => "No title found"
  }

  // ---------------------------------------------------------------------------
  // _extract_main_content

  /** The text of the first selector that matched, else `fallback`. */
  function FirstMatch(matches: seq<Option<string>>, fallback: string): string {
    if matches == [] then fallback
    else if matches[0].Some? then matches[0].value
    else FirstMatch(matches[1..], fallback)
  }

  /** The fallback when no selector matched: the body, else the whole page. */
  function Fallback(p: Page): string {
    match p.body
    case Some(b) => b
    case None => p.wholeText
  }

  /** The main content: the first selector in order that matched wins;
      only when none matched is the body, or else the whole page, used. */
  function MainContent(p: Page): string {
    FirstMatch(p.selectorMatches, Fallback(p))
  }

  /** `FirstMatch` is the text of the earliest match, and the fallback
      exactly when nothing matched. */
  lemma {:induction false} FirstMatchIsFirst(matches: seq<Option<string>>, fallback: string)
    ensures (forall i :: 0 <= i < |matches| ==> matches[i].None?) ==> FirstMatch(matches, fallback) == fallback
    ensures forall i :: 0 <= i < |matches| && matches[i].Some? && (forall j :: 0 <= j < i ==> matches[j].None?) ==>
              FirstMatch(matches, fallback) == matches[i].value
  {
    if matches != [] {
      FirstMatchIsFirst(matches[1..], fallback);
      assert forall i :: 1 <= i < |matches| ==> matches[1..][i - 1] == matches[i];
    }
  }

  /** `_extract_main_content`: tries the selectors in order. */
  method ExtractMainContent(p: Page) returns (text: string)
    ensures text == MainContent(p)
  {
    var i := 0;
    while i < |p.selectorMatches|
      invariant 0 <= i <= |p.selectorMatches|
      invariant MainContent(p) == FirstMatch(p.selectorMatches[i..], Fallback(p))
    {
      assert p.selectorMatches[i..][1..] == p.selectorMatches[i + 1..];
      if p.selectorMatches[i].Some? {
        return p.selectorMatches[i].value;
      }
      i := i + 1;
    }
    match p.body {
      case Some(b) => text := b;
      case None => text := p.wholeText;
    }
  }

  // ---------------------------------------------------------------------------
  // read_webpage

  /** `read_webpage`: a URL without a scheme or network location fails
      before anything is fetched; each way the fetch can fail has its own
      message; otherwise the main content is cleaned and truncated to
      `max_length` characters plus "...". */
  method ReadWebpage(url: string, parsed: ParsedUrl, maxLength: int, fetch: Fetch) returns (r: Result<Webpage, string>)
    ensures !WellFormed(parsed) ==> r == Err("Invalid URL format")
    ensures WellFormed(parsed) ==>
              match fetch
              case TimedOut => r == Err("Request timeout - the webpage took too long to load")
              case StatusError(code, reason) => r == Err("HTTP error " + IntToString(code) + ": " + reason)
              case Failed(e) => r == Err("Failed to read webpage: " + e)
              case Fetched(code, page) =>
                var content := Truncate(CleanText(MainContent(page)), maxLength);
                r == Ok(Webpage(url, TitleText(page), content, |content|, code))
  {
    if parsed.scheme == "" || parsed.netloc == "" {
      return Err("Invalid URL format");
    }
    match fetch {
      case TimedOut =>
        r := Err("Request timeout - the webpage took too long to load");
      case StatusError(code, reason) =>
        r := Err("HTTP error " + IntToString(code) + ": " + reason);
      case Failed(e) =>
        r := Err("Failed to read webpage: " + e);
      case Fetched(code, page) =>
        var text := ExtractMainContent(page);
        var content := Truncate(CleanText(text), maxLength);
        r := Ok(Webpage(url, TitleText(page), content, |content|, code));
    }
  }

  /** The content read is whitespace-normalised when it fits, otherwise a
      prefix of `max_length` characters plus "...", and never longer than
      `max_length + 3`; the title never carries outer whitespace. */
  lemma ReadContentBounds(page: Page, maxLength: int)
    requires maxLength >= 0
    ensures var cleaned := CleanText(MainContent(page));
            var content := Truncate(cleaned, maxLength);
            && |content| <= maxLength + 3
            && (|cleaned| <= maxLength ==> content == cleaned && Normalized(content))
            && (|cleaned| > maxLength ==> content == cleaned[..maxLength] + "...")
            && (page.title.Some? ==> Stripped(TitleText(page)))
  {
    TruncateShape(CleanText(MainContent(page)), maxLength);
    CleanTextNormalized(MainContent(page));
    if page.title.Some? {
      StripShape(page.title.value);
    }
  }

  // ---------------------------------------------------------------------------
  // search_webpage_content

  /** The successful answer of `search_webpage_content`. */
  datatype WebSearch = WebSearch(
    url: string,
    title: string,
    searchResults: map<string, TermResult>,
    totalTermsSearched: nat,
    termsFound: nat)

  /** `search_webpage_content`: a failed read is returned as it is;
      otherwise every term is looked up in the read content with a
      200-character context window. */
  method SearchWebpageContent(url: string, parsed: ParsedUrl, terms: seq<string>, maxLength: int, fetch: Fetch)
    returns (r: Result<WebSearch, string>)
    ensures r.Ok? <==> WellFormed(parsed) && fetch.Fetched?
    ensures !WellFormed(parsed) ==> r == Err("Invalid URL format")
    ensures WellFormed(parsed) ==>
              match fetch
              case TimedOut => r == Err("Request timeout - the webpage took too long to load")
              case StatusError(code, reason) => r == Err("HTTP error " + IntToString(code) + ": " + reason)
              case Failed(e) => r == Err("Failed to read webpage: " + e)
              case Fetched(_, _) => r.Ok?
    ensures r.Ok? ==>
              var content := Truncate(CleanText(MainContent(fetch.page)), maxLength);
              && r.value.url == url
              && r.value.title == TitleText(fetch.page)
              && r.value.searchResults.Keys == (set t | t in terms)
              && (forall t :: t in r.value.searchResults ==> r.value.searchResults[t] == SearchTerm(content, t, 200))
              && r.value.totalTermsSearched == |terms|
              && r.value.termsFound == FoundCount(r.value.searchResults) <= |terms|
  {
    var read := ReadWebpage(url, parsed, maxLength, fetch);
    match read {
      case Err(e) =>
        r := Err(e);
      case Ok(w) =>
        var results, found := SearchTerms(w.content, terms, 200);
        r := Ok(WebSearch(url, w.title, results, |terms|, found));
    }
  }

  // ---------------------------------------------------------------------------
  // extract_links

  /** One `<a href>` of the page: `urljoin(url, href)`, the network
      location `urlparse` gives for it, and the anchor's text. */
  datatype Anchor = Anchor(absoluteUrl: string, domain: string, text: string)

  /** One entry of `links`. */
  datatype Link = Link(url: string, text: string, domain: string)

  /** The successful answer of `extract_links`. */
  datatype LinkList = LinkList(url: string, links: seq<Link>, totalLinks: nat, filteredByDomain: bool)

  /** An anchor survives the domain filter. */
  predicate Kept(a: Anchor, baseDomain: string, filterDomain: bool) {
    !filterDomain || a.domain == baseDomain
  }

  function LinkOf(a: Anchor): Link {
    Link(a.absoluteUrl, Strip(a.text), a.domain)
  }

  /** The anchors the loop keeps after seeing `anchors`, in page order. */
  function KeptAnchors(anchors: seq<Anchor>, baseDomain: string, filterDomain: bool): (kept: seq<Anchor>)
    ensures |kept| <= |anchors|
  {
    if anchors == [] then []
    else
      var last := anchors[|anchors| - 1];
      KeptAnchors(anchors[..|anchors| - 1], baseDomain, filterDomain)
      + (if Kept(last, baseDomain, filterDomain) then [last] else [])
  }

  /** One link per anchor, in order. */
  function LinksFor(kept: seq<Anchor>): (links: seq<Link>)
    ensures |links| == |kept|
  {
    seq(|kept|, j requires 0 <= j < |kept| => LinkOf(kept[j]))
  }

  lemma LinksForAppend(kept: seq<Anchor>, a: Anchor)
    ensures LinksFor(kept + [a]) == LinksFor(kept) + [LinkOf(a)]
  {
    assert forall j :: 0 <= j < |kept| ==> (kept + [a])[j] == kept[j];
  }

  /** `links`: one entry per kept anchor, in page order. */
  function LinksOf(anchors: seq<Anchor>, baseDomain: string, filterDomain: bool): seq<Link> {
    LinksFor(KeptAnchors(anchors, baseDomain, filterDomain))
  }

  /** An anchor is kept exactly when it is on the page and survives the
      filter. */
  lemma {:induction false} KeptExactly(anchors: seq<Anchor>, baseDomain: string, filterDomain: bool, a: Anchor)
    ensures a in KeptAnchors(anchors, baseDomain, filterDomain) <==> a in anchors && Kept(a, baseDomain, filterDomain)
  {
    if anchors != [] {
      var init := anchors[..|anchors| - 1];
      KeptExactly(init, baseDomain, filterDomain, a);
      assert anchors == init + [anchors[|anchors| - 1]];
    }
  }

  /** With the filter on, every link is on the page's own domain. */
  lemma SameDomainWhenFiltered(anchors: seq<Anchor>, baseDomain: string, j: nat)
    requires j < |LinksOf(anchors, baseDomain, true)|
    ensures LinksOf(anchors, baseDomain, true)[j].domain == baseDomain
  {
    var kept := KeptAnchors(anchors, baseDomain, true);
    assert kept[j] in kept;
    KeptExactly(anchors, baseDomain, true, kept[j]);
  }

  /** With the filter off, every anchor is kept, in page order. */
  lemma {:induction false} AllKeptWhenUnfiltered(anchors: seq<Anchor>, baseDomain: string)
    ensures KeptAnchors(anchors, baseDomain, false) == anchors
  {
    if anchors != [] {
      AllKeptWhenUnfiltered(anchors[..|anchors| - 1], baseDomain);
      assert anchors == anchors[..|anchors| - 1] + [anchors[|anchors| - 1]];
    }
  }

  /** One more anchor: its link is appended when the anchor is kept. */
  lemma LinksOfStep(page: seq<Anchor>, baseDomain: string, filterDomain: bool, i: nat)
    requires i < |page|
    ensures LinksOf(page[..i + 1], baseDomain, filterDomain)
         == LinksOf(page[..i], baseDomain, filterDomain)
            + (if Kept(page[i], baseDomain, filterDomain) then [LinkOf(page[i])] else [])
  {
    var kept := KeptAnchors(page[..i], baseDomain, filterDomain);
    assert KeptAnchors(page[..i + 1], baseDomain, filterDomain)
        == kept + (if Kept(page[i], baseDomain, filterDomain) then [page[i]] else []) by {
      assert page[..i + 1][..i] == page[..i];
    }
    if Kept(page[i], baseDomain, filterDomain) {
      LinksForAppend(kept, page[i]);
    } else {
      assert kept + [] == kept;
    }
  }

  /** `extract_links`: `anchors` is the page's links, or the error fetching
      or parsing the page raised. */
  method ExtractLinks(url: string, parsed: ParsedUrl, anchors: Result<seq<Anchor>, string>, filterDomain: bool)
    returns (r: Result<LinkList, string>)
    ensures anchors.Err? ==> r == Err("Failed to extract links: " + anchors.error)
    ensures anchors.Ok? ==>
              && r.Ok?
              && r.value.url == url
              && r.value.links == LinksOf(anchors.value, parsed.netloc, filterDomain)
              && r.value.totalLinks == |r.value.links|
              && r.value.filteredByDomain == filterDomain
  {
    if anchors.Err? {
      return Err("Failed to extract links: " + anchors.error);
    }
    var page := anchors.value;
    var baseDomain := parsed.netloc;
    var links: seq<Link> := [];
    var i := 0;
    while i < |page|
      invariant 0 <= i <= |page|
      invariant links == LinksOf(page[..i], baseDomain, filterDomain)
    {
      LinksOfStep(page, baseDomain, filterDomain, i);
      var a := page[i];
      i := i + 1;
      if filterDomain && a.domain != baseDomain {
        continue;
      }
      links := links + [LinkOf(a)];
    }
    assert page[..i] == page;
    r := Ok(LinkList(url, links, |links|, filterDomain));
  }
}
