/** `fetch_full_article(url)` (app.py:105-123): download the page, extract its
    main content, clean it and put a fixed header in front; every failure on
    the way ends in one fixed message and nothing is raised. The network and
    the HTML parser are parameters: `get(url, timeout)` is what
    `requests.get(url, timeout=10)` yields, `parse` what `BeautifulSoup(text, 'html.parser')` yields. */
module ArticleFetcher {
  import opened Wrappers
  import opened TextCleaner
  import opened ContentExtractor

  /** The outcome of the HTTP request: a transport failure (connection error,
      the 10-second timeout) or a response with its status code and body text. */
  datatype HttpResult = TransportError | Response(status: int, text: string)

  /** The request gives up after this many seconds (app.py:107). */
  const RequestTimeoutSeconds: nat := 10

  const DetailsHeader: string := "\U{1F4F0} Important Details:\n\n"

  const FallbackMessage: string := "Could not fetch the article content."

  /** The statuses for which `raise_for_status` raises: 4xx client and 5xx server errors. */
  predicate IsErrorStatus(status: int)
  {
    400 <= status < 600
  }

  /** The extracted content, or `None` as soon as one step raises. */
  function ImportantContent<E>(response: HttpResult, parse: string -> Option<Page<E>>): Option<string>
  {
    match response
    case TransportError => None
    case Response(status, text) =>
      if IsErrorStatus(status) then None
      else
        match parse(text)
        case None => None
        case Some(page) => Extracted(page)
  }

  /** The text `fetch_full_article` returns. */
  function FullArticleText<E>(cc: CharClasses, response: HttpResult, parse: string -> Option<Page<E>>): string
  {
    match ImportantContent(response, parse)
    case None => FallbackMessage
    case Some(content) => DetailsHeader + CleanText(cc, content)
  }

  method FetchFullArticle<E>(cc: CharClasses, url: string, get: (string, nat) -> HttpResult,
                             parse: string -> Option<Page<E>>) returns (shown: string)
    ensures shown == FullArticleText(cc, get(url, RequestTimeoutSeconds), parse)
    ensures shown == FallbackMessage <==> ImportantContent(get(url, RequestTimeoutSeconds), parse).None?
    ensures ImportantContent(get(url, RequestTimeoutSeconds), parse).Some? ==>
            shown == DetailsHeader + CleanText(cc, ImportantContent(get(url, RequestTimeoutSeconds), parse).value)
  {
    var response := get(url, RequestTimeoutSeconds);
    if response.TransportError? || IsErrorStatus(response.status) {
      return FallbackMessage;
    }
    var soup := parse(response.text);
    if soup.None? {
      return FallbackMessage;
    }
    var important := ExtractImportantContent(soup.value);
    if important.None? {
      return FallbackMessage;
    }
    var cleaned := CleanText(cc, important.value);
    shown := DetailsHeader + cleaned;
    assert shown[0] != FallbackMessage[0];
  }

  /** On success the shown text is the header followed by cleaned text: it
      starts with the header, is never the fallback, and its body is no
      longer than the extracted content. */
  lemma FullArticleOnSuccess<E>(cc: CharClasses, response: HttpResult, parse: string -> Option<Page<E>>)
    requires ImportantContent(response, parse).Some?
    ensures var shown := FullArticleText(cc, response, parse);
            && |DetailsHeader| <= |shown| <= |DetailsHeader| + |ImportantContent(response, parse).value|
            && shown[..|DetailsHeader|] == DetailsHeader
            && shown != FallbackMessage
  {
    var shown := FullArticleText(cc, response, parse);
    CleanTextShape(cc, ImportantContent(response, parse).value);
    assert shown[0] != FallbackMessage[0];
  }
}
