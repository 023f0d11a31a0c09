/** The content extractor `extract_important_content` (app.py:70-103), with the
    HTML parser left abstract. A parsed page is given by three library results:
    what `soup.select_one(selector)` finds, what `soup.body` is, and, for a
    container and a boilerplate selector, the texts `p.get_text(strip=True)` of
    the paragraph and heading elements that `find_all` returns inside the
    container once the elements matching that selector are decomposed. */
module ContentExtractor {
  import opened Wrappers
  import opened Strings

  /** The library view of one parsed page; `E` stands for the parser's element type. */
  datatype Page<!E> = Page(
    selectOne: string -> Option<E>,
    body: Option<E>,
    paragraphTexts: (E, string) -> seq<string>)

  /** Candidate containers of the main content, tried in this order (app.py:75-79). */
  const ContentSelectors: seq<string> := [
    "article", "main", "content", "post", "entry",
    "[class*=\"content\"]", "[class*=\"article\"]", "[class*=\"post\"]",
    "[id*=\"content\"]", "[id*=\"article\"]", "[id*=\"post\"]"
  ]

  /** Boilerplate decomposed inside the container before paragraphs are read (app.py:90). */
  const BoilerplateSelector: string :=
    "script, style, nav, header, footer, .ad, .advertisement, .sidebar, .comment, .share, .social, .menu, .navigation, .footer, .header"

  /** A part is kept only if it has more characters than this (app.py:100). */
  const MinPartLength: nat := 20

  /** Kept parts are separated by a blank line (app.py:103). */
  const PartSeparator: string := "\n\n"

  /** The first selector, in list order, that matches something. */
  function FirstMatch<E>(selectors: seq<string>, selectOne: string -> Option<E>): Option<E>
  {
    if selectors == [] then None
    else if selectOne(selectors[0]).Some? then selectOne(selectors[0])
    else FirstMatch(selectors[1..], selectOne)
  }

  /** The container the extractor reads: the first matching selector, else the body. */
  function Container<E>(page: Page<E>): Option<E>
  {
    var found := FirstMatch(ContentSelectors, page.selectOne);
    if found.Some? then found else page.body
  }

  /** `if text and len(text) > 20` */
  predicate IsSubstantial(text: string)
  {
    |text| > MinPartLength
  }

  /** What the extractor returns; `None` is the AttributeError raised when no
      selector matched and the page has no body (`None.select(...)`). */
  function Extracted<E>(page: Page<E>): Option<string>
  {
    match Container(page)
    case None => None
    case Some(main) => Some(Join(PartSeparator, Filter(IsSubstantial, page.paragraphTexts(main, BoilerplateSelector))))
  }

  /** The selector loop with `break`, then the fallback to the body (app.py:81-87). */
  method SelectMainContent<E>(page: Page<E>) returns (main: Option<E>)
    ensures main == Container(page)
  {
    main := None;
    var i := 0;
    while i < |ContentSelectors|
      invariant 0 <= i <= |ContentSelectors|
      invariant main.None?
      invariant FirstMatch(ContentSelectors, page.selectOne) == FirstMatch(ContentSelectors[i..], page.selectOne)
    {
      main := page.selectOne(ContentSelectors[i]);
      if main.Some? {
        break;
      }
      assert ContentSelectors[i..][1..] == ContentSelectors[i + 1..];
      i := i + 1;
    }
    if main.None? {
      main := page.body;
    }
  }

  /** The loop that appends every substantial text to `content_parts` (app.py:97-101). */
  method CollectContentParts(texts: seq<string>) returns (parts: seq<string>)
    ensures parts == Filter(IsSubstantial, texts)
  {
    parts := [];
    var i := 0;
    while i < |texts|
      invariant 0 <= i <= |texts|
      invariant parts == Filter(IsSubstantial, texts[..i])
    {
      var text := texts[i];
      FilterConcat(IsSubstantial, texts[..i], [text]);
      assert texts[..i + 1] == texts[..i] + [text];
      if text != [] && |text| > MinPartLength {
        parts := parts + [text];
      }
      i := i + 1;
    }
    assert texts[..i] == texts;
  }

  /** `extract_important_content(soup)`; `None` when the source raises. */
  method ExtractImportantContent<E>(page: Page<E>) returns (r: Option<string>)
    ensures r == Extracted(page)
  {
    var main := SelectMainContent(page);
    if main.None? {
      return None;
    }
    var parts := CollectContentParts(page.paragraphTexts(main.value, BoilerplateSelector));
    r := Some(Join(PartSeparator, parts));
  }

  // ---------------------------------------------------------------------
  // Properties of the selector search and of the filter and join

  /** No selector matches exactly when the search finds nothing. */
  lemma {:induction false} FirstMatchNone<E>(selectors: seq<string>, selectOne: string -> Option<E>)
    ensures FirstMatch(selectors, selectOne).None? <==>
            forall i :: 0 <= i < |selectors| ==> selectOne(selectors[i]).None?
  {
    if selectors != [] {
      FirstMatchNone(selectors[1..], selectOne);
      if selectOne(selectors[0]).None? {
        forall i | 0 < i < |selectors| ensures selectors[i] == selectors[1..][i - 1] { }
      }
    }
  }

  /** The search returns the match of the first selector that matches. */
  lemma {:induction false} FirstMatchAt<E>(selectors: seq<string>, selectOne: string -> Option<E>, k: nat)
    requires k < |selectors| && selectOne(selectors[k]).Some?
    requires forall j :: 0 <= j < k ==> selectOne(selectors[j]).None?
    ensures FirstMatch(selectors, selectOne) == selectOne(selectors[k])
  {
    if k > 0 {
      FirstMatchAt(selectors[1..], selectOne, k - 1);
    }
  }

  /** Extraction fails exactly when no selector matches and there is no body. */
  lemma ExtractionFails<E>(page: Page<E>)
    ensures Extracted(page).None? <==>
            page.body.None? && forall i :: 0 <= i < |ContentSelectors| ==> page.selectOne(ContentSelectors[i]).None?
  {
    FirstMatchNone(ContentSelectors, page.selectOne);
  }

  /** When the k-th selector is the first to match, its element is the one read. */
  lemma ExtractsFirstMatchingContainer<E>(page: Page<E>, k: nat)
    requires k < |ContentSelectors| && page.selectOne(ContentSelectors[k]).Some?
    requires forall j :: 0 <= j < k ==> page.selectOne(ContentSelectors[j]).None?
    ensures Extracted(page) ==
            Some(Join(PartSeparator, Filter(IsSubstantial, page.paragraphTexts(page.selectOne(ContentSelectors[k]).value, BoilerplateSelector))))
  {
    FirstMatchAt(ContentSelectors, page.selectOne, k);
  }

  /** When no selector matches, the body is read. */
  lemma ExtractsBodyWhenNothingMatches<E>(page: Page<E>)
    requires forall i :: 0 <= i < |ContentSelectors| ==> page.selectOne(ContentSelectors[i]).None?
    requires page.body.Some?
    ensures Extracted(page) == Some(Join(PartSeparator, Filter(IsSubstantial, page.paragraphTexts(page.body.value, BoilerplateSelector))))
  {
    FirstMatchNone(ContentSelectors, page.selectOne);
  }

  /** The kept parts are exactly the texts longer than 20 characters, each
      with its own length, and the join is empty when none qualifies. */
  lemma {:induction false} ContentParts(texts: seq<string>)
    ensures forall t :: t in Filter(IsSubstantial, texts) <==> t in texts && |t| > MinPartLength
    ensures (forall i :: 0 <= i < |texts| ==> |texts[i]| <= MinPartLength) ==>
            Join(PartSeparator, Filter(IsSubstantial, texts)) == ""
  {
    forall t ensures t in Filter(IsSubstantial, texts) <==> t in texts && |t| > MinPartLength {
      FilterMembership(IsSubstantial, texts, t);
    }
    if forall i :: 0 <= i < |texts| ==> |texts[i]| <= MinPartLength {
      FilterKeepsNone(IsSubstantial, texts);
    }
  }

  /** Parts keep document order: the text of two consecutive stretches of
      paragraphs is the text of each, separated by a blank line. */
  lemma {:induction false} JoinedParts(a: seq<string>, b: seq<string>)
    requires Filter(IsSubstantial, a) != [] && Filter(IsSubstantial, b) != []
    ensures Join(PartSeparator, Filter(IsSubstantial, a + b)) ==
            Join(PartSeparator, Filter(IsSubstantial, a)) + "\n\n" + Join(PartSeparator, Filter(IsSubstantial, b))
  {
    FilterConcat(IsSubstantial, a, b);
    JoinConcat(PartSeparator, Filter(IsSubstantial, a), Filter(IsSubstantial, b));
  }
}
