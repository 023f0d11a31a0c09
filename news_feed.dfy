/** The feed-to-article mapping of `get_news` (app.py:137-160) and the text
    `summarize_article` puts on screen (app.py:175-179). `feedparser.parse`
    and the LSA summarizer are foreign: a feed arrives as a value, the
    summary sentences as a sequence, and `BeautifulSoup(content).get_text()`
    as the parameter `plainText`. */
module NewsFeed {
  import opened Wrappers
  import opened Strings

  /** One feed entry, each attribute present or absent as `hasattr` sees it. */
  datatype Entry = Entry(
    title: Option<string>,
    summary: Option<string>,
    description: Option<string>,
    link: Option<string>)

  /** What `feedparser.parse` returns: the `bozo` error flag and the entries, in feed order. */
  datatype Feed = Feed(bozo: bool, entries: seq<Entry>)

  /** The tuple `(title, clean_text, link)` kept in `articles`. */
  datatype Article = Article(title: string, text: string, link: string)

  /** The WHO health-news feed that `get_news` reads (app.py:138). */
  const FeedUrl: string := "https://www.who.int/rss-feeds/news-english.xml"

  /** Only this many entries are read (`feed.entries[:10]`). */
  const MaxArticles: nat := 10

  /** The entries `get_news` reads: at most the first ten. */
  function Newest(feed: Feed): (r: seq<Entry>)
    ensures |r| == if |feed.entries| < MaxArticles then |feed.entries| else MaxArticles
    ensures forall i :: 0 <= i < |r| ==> r[i] == feed.entries[i]
  {
    if |feed.entries| <= MaxArticles then feed.entries else feed.entries[..MaxArticles]
  }

  /** An entry that the loop body reads without raising: `entry.title` exists,
      and so does `entry.summary` or `entry.description`. */
  predicate Readable(e: Entry)
  {
    e.title.Some? && (e.summary.Some? || e.description.Some?)
  }

  /** The loop body for one entry; `None` where the source raises AttributeError. */
  function ToArticle(e: Entry, plainText: string -> string): Option<Article>
  {
    match e.title
    case None => None
    case Some(title) =>
      var content := if e.summary.Some? then e.summary else e.description;
      match content
      case None => None
      case Some(markup) =>
        Some(Article(title, plainText(markup), if e.link.Some? then e.link.value else ""))
  }

  /** The articles appended before the loop ends or raises: one per entry, up to
      the first unreadable one. */
  function Converted(entries: seq<Entry>, plainText: string -> string): (r: seq<Article>)
    ensures |r| <= |entries|
  {
    if entries == [] then []
    else
      match ToArticle(entries[0], plainText)
      case None => []
      case Some(a) => [a] + Converted(entries[1..], plainText)
  }

  /** The titles in `news_list`, one per article, in the same order. */
  function Titles(articles: seq<Article>): (r: seq<string>)
    ensures |r| == |articles|
    ensures forall i :: 0 <= i < |r| ==> r[i] == articles[i].title
  {
    if articles == [] then [] else Titles(articles[..|articles| - 1]) + [articles[|articles| - 1].title]
  }

  /** The text shown for a selected article: `f"📰 {title}\n\n{summary_text}"`
      with `summary_text = "\n".join(sentences)`. */
  function SummaryDisplay(title: string, sentences: seq<string>): string
  {
    SummaryHeading(title) + Join("\n", sentences)
  }

  function SummaryHeading(title: string): string
  {
    "\U{1F4F0} " + title + "\n\n"
  }

  /** The loop of `get_news` (app.py:153-159): the articles read, in order, and
      the index of the entry at which the loop raised, if any. */
  method ReadEntries(entries: seq<Entry>, plainText: string -> string)
    returns (loaded: seq<Article>, failedAt: Option<nat>)
    ensures loaded == Converted(entries, plainText)
    ensures failedAt.None? <==> forall i :: 0 <= i < |entries| ==> Readable(entries[i])
    ensures failedAt.Some? ==>
            && failedAt.value < |entries| && !Readable(entries[failedAt.value])
            && (forall j :: 0 <= j < failedAt.value ==> Readable(entries[j]))
            && |loaded| == failedAt.value
  {
    loaded, failedAt := [], None;
    var i := 0;
    while i < |entries|
      invariant 0 <= i <= |entries|
      invariant forall j :: 0 <= j < i ==> Readable(entries[j])
      invariant loaded == Converted(entries[..i], plainText)
      invariant failedAt.None?
    {
      var entry := entries[i];
      if entry.title.None? {
        failedAt := Some(i);
        break;
      }
      var content := if entry.summary.Some? then entry.summary else entry.description;
      if content.None? {
        failedAt := Some(i);
        break;
      }
      var link := if entry.link.Some? then entry.link.value else "";
      var article := Article(entry.title.value, plainText(content.value), link);
      assert ToArticle(entry, plainText) == Some(article);
      ConvertedPrefixStep(entries, i, plainText);
      loaded := loaded + [article];
      i := i + 1;
    }
    if failedAt.Some? {
      assert failedAt.value == i && !Readable(entries[i]);
      ConvertedStops(entries, plainText, i);
    } else {
      assert entries[..i] == entries;
    }
  }

  // ---------------------------------------------------------------------
  // Properties

  /** Articles are the readable entries in feed order:
      the title, the plain text of the summary if there is one and else of the
      description, and the link or "" when there is none. */
  lemma {:induction false} ConvertedReadable(entries: seq<Entry>, plainText: string -> string)
    requires forall i :: 0 <= i < |entries| ==> Readable(entries[i])
    ensures |Converted(entries, plainText)| == |entries|
    ensures forall i :: 0 <= i < |entries| ==>
      var e, a := entries[i], Converted(entries, plainText)[i];
      && Readable(e)
      && a.title == e.title.value
      && a.text == plainText(if e.summary.Some? then e.summary.value else e.description.value)
      && a.link == (if e.link.Some? then e.link.value else "")
  {
    if entries != [] {
      ConvertedReadable(entries[1..], plainText);
      var c := Converted(entries, plainText);
      forall i | 0 < i < |entries|
        ensures c[i] == Converted(entries[1..], plainText)[i - 1] && entries[i] == entries[1..][i - 1]
      {
      }
    }
  }

  /** One more readable entry adds its article at the end. */
  lemma {:induction false} ConvertedAppend(entries: seq<Entry>, e: Entry, plainText: string -> string)
    requires forall i :: 0 <= i < |entries| ==> Readable(entries[i])
    requires Readable(e)
    ensures Converted(entries + [e], plainText) == Converted(entries, plainText) + [ToArticle(e, plainText).value]
  {
    if entries == [] {
      assert entries + [e] == [e];
    } else {
      assert (entries + [e])[1..] == entries[1..] + [e];
      ConvertedAppend(entries[1..], e, plainText);
    }
  }

  /** The articles of a readable prefix grow by one article per further readable entry. */
  lemma ConvertedPrefixStep(entries: seq<Entry>, i: nat, plainText: string -> string)
    requires i < |entries|
    requires forall j :: 0 <= j < i ==> Readable(entries[j])
    requires Readable(entries[i])
    ensures Converted(entries[..i + 1], plainText) ==
            Converted(entries[..i], plainText) + [ToArticle(entries[i], plainText).value]
  {
    assert forall j :: 0 <= j < i ==> Readable(entries[..i][j]);
    ConvertedAppend(entries[..i], entries[i], plainText);
    assert entries[..i + 1] == entries[..i] + [entries[i]];
  }

  /** The loop stops at the first unreadable entry with exactly the articles before it. */
  lemma {:induction false} ConvertedStops(entries: seq<Entry>, plainText: string -> string, k: nat)
    requires k < |entries| && !Readable(entries[k])
    requires forall j :: 0 <= j < k ==> Readable(entries[j])
    ensures Converted(entries, plainText) == Converted(entries[..k], plainText)
    ensures |Converted(entries, plainText)| == k
  {
    if k > 0 {
      ConvertedStops(entries[1..], plainText, k - 1);
      assert entries[..k][1..] == entries[1..][..k - 1];
      ConvertedReadable(entries[..k], plainText);
    }
  }

  /** The sentences can be read back from the screen: the text after the
      heading, split at newlines, gives them back when none holds a newline. */
  lemma {:induction false} SummaryDisplaySentences(title: string, sentences: seq<string>)
    requires sentences != []
    requires forall i :: 0 <= i < |sentences| ==> '\n' !in sentences[i]
    ensures var shown, heading := SummaryDisplay(title, sentences), SummaryHeading(title);
            && |heading| <= |shown|
            && shown[..|heading|] == heading
            && Split('\n', shown[|heading|..]) == sentences
  {
    var shown, heading := SummaryDisplay(title, sentences), SummaryHeading(title);
    assert shown[|heading|..] == Join("\n", sentences);
    SplitJoin('\n', sentences);
  }
}
