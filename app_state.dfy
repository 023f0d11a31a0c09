/** The application's global state (app.py:20-25, 255) and the event handlers
    that change it: `get_news`, `summarize_article`, `show_full_article`,
    `read_current_content` and `stop_reading`, plus the end of the playback
    thread `reading_task`. Widgets are reduced to their contents: the listbox
    to the sequence of titles it shows, the text box to the string it holds.
    The speech engine is reduced to a count of its re-initialisations and the
    playback threads to the texts handed to them. */
module HealthNewsApp {
  import opened Wrappers
  import opened Strings
  import opened TextCleaner
  import opened ContentExtractor
  import opened ArticleFetcher
  import opened NewsFeed

  /** The speech part of the state: `is_reading`; how many times the engine
      was re-initialised (`init_tts_engine()` calls after start-up, app.py:32
      and app.py:56; pyttsx3 may hand back the same driver object each time);
      and the texts handed to playback threads, oldest first. */
  datatype Speech = Speech(reading: bool, reinits: nat, playbacks: seq<string>)

  /** `stop_reading` (app.py:27-32): clear the flag, stop the engine and
      re-initialise it, whether or not anything was being read. */
  function Stopped(s: Speech): Speech
  {
    Speech(false, s.reinits + 1, s.playbacks)
  }

  /** `read_current_content` (app.py:34-61) given the stripped text on screen:
      a press while reading stops; an empty screen changes nothing; otherwise
      the flag is set and one playback thread starts on that text. */
  function AfterRead(s: Speech, content: string): Speech
  {
    if s.reading then Stopped(s)
    else if content == [] then s
    else Speech(true, s.reinits, s.playbacks + [content])
  }

  /** The end of `reading_task` as written (app.py:50-58): after a failure the
      global engine is re-initialised; the `is_reading = False` of the `finally`
      block binds a local of the thread function, so the flag stays as it was. */
  function AfterPlayback(s: Speech, failed: bool): Speech
  {
    Speech(s.reading, if failed then s.reinits + 1 else s.reinits, s.playbacks)
  }

  /** The end of `reading_task` as evidently intended: the flag is cleared too. */
  function AfterPlaybackIntended(s: Speech, failed: bool): Speech
  {
    Speech(false, if failed then s.reinits + 1 else s.reinits, s.playbacks)
  }

  /** What can happen to the speech state: the Read button with the stripped
      text on screen, the Stop button, and a playback thread finishing. */
  datatype SpeechEvent = ReadPressed(content: string) | StopPressed | PlaybackEnded(failed: bool)

  function Step(s: Speech, e: SpeechEvent): Speech
  {
    match e
    case ReadPressed(content) => AfterRead(s, content)
    case StopPressed => Stopped(s)
    case PlaybackEnded(failed) => AfterPlayback(s, failed)
  }

  function Run(s: Speech, events: seq<SpeechEvent>): Speech
    decreases |events|
  {
    if events == [] then s else Run(Step(s, events[0]), events[1..])
  }

  /** Relative to a start state `s0`: the playbacks started since `s0` are at
      most one per re-initialisation, plus the one still flagged as running. */
  ghost predicate OnePlaybackPerInit(s0: Speech, s: Speech)
  {
    && |s0.playbacks| <= |s.playbacks|
    && s.playbacks[..|s0.playbacks|] == s0.playbacks
    && s0.reinits <= s.reinits
    && |s.playbacks| - |s0.playbacks| <= s.reinits - s0.reinits + (if s.reading then 1 else 0)
  }

  /** As written, playbacks are only ever added, and between any two playback
      starts lies a stop or a failed playback that re-initialised the engine.
      This holds only because a finished playback never clears the flag
      (app.py:58): with the intended ending it fails, see
      `IntendedEndingSkipsReinit`. */
  lemma {:induction false} PlaybacksNeedReinit(s0: Speech, s: Speech, events: seq<SpeechEvent>)
    requires OnePlaybackPerInit(s0, s)
    ensures OnePlaybackPerInit(s0, Run(s, events))
    decreases |events|
  {
    if events != [] {
      var t := Step(s, events[0]);
      assert OnePlaybackPerInit(s0, t) by {
        if t.playbacks != s.playbacks {
          assert t.playbacks[..|s0.playbacks|] == s.playbacks[..|s0.playbacks|];
        }
      }
      PlaybacksNeedReinit(s0, t, events[1..]);
    }
  }

  /** Pressing Read twice while idle starts one playback and ends idle with the engine re-initialised once. */
  lemma ReadTwiceToggles(s: Speech, content: string)
    requires !s.reading && content != []
    ensures var r := Run(s, [ReadPressed(content), ReadPressed(content)]);
            && !r.reading && r.reinits == s.reinits + 1 && r.playbacks == s.playbacks + [content]
  {
    var once := AfterRead(s, content);
    assert Run(once, [ReadPressed(content)]) == Run(AfterRead(once, content), []);
  }

  /** As written, Read after a playback has finished only stops: the second
      press starts nothing, because the flag was never cleared. */
  lemma ReadAfterPlaybackOnlyStops(s: Speech, content: string)
    requires !s.reading && content != []
    ensures var r := Run(s, [ReadPressed(content), PlaybackEnded(false), ReadPressed(content)]);
            && !r.reading && r.playbacks == s.playbacks + [content]
  {
    var a := AfterRead(s, content);
    var b := AfterPlayback(a, false);
    assert Run(b, [ReadPressed(content)]) == AfterRead(b, content);
    assert Run(a, [PlaybackEnded(false), ReadPressed(content)]) == Run(b, [ReadPressed(content)]);
  }

  /** With the intended thread ending, the same presses start a second playback. */
  lemma ReadAfterIntendedPlaybackRestarts(s: Speech, content: string)
    requires !s.reading && content != []
    ensures var r := AfterRead(AfterPlaybackIntended(AfterRead(s, content), false), content);
            && r.reading && r.playbacks == s.playbacks + [content, content]
  {
  }

  /** With the intended thread ending, two playbacks start without a
      re-initialisation between them: the bound of `PlaybacksNeedReinit` is a
      consequence of the flag never being cleared. */
  lemma IntendedEndingSkipsReinit(s: Speech, content: string)
    requires !s.reading && content != []
    ensures !OnePlaybackPerInit(s, AfterRead(AfterPlaybackIntended(AfterRead(s, content), false), content))
  {
    var r := AfterRead(AfterPlaybackIntended(AfterRead(s, content), false), content);
    assert r.reinits == s.reinits && |r.playbacks| == |s.playbacks| + 2;
  }

  /** The outcome of `get_news`: the error dialog for a `bozo` feed, the
      information dialog for an empty one, a full reload, or the
      AttributeError raised at entry `index` of the first ten. */
  datatype FeedOutcome = FeedError | NoNews | Loaded | EntryError(index: nat)

  /** The screen part of the state. */
  datatype Screen = Screen(
    articles: seq<Article>,
    newsList: seq<string>,
    display: string,
    currentSummary: string,
    currentArticleUrl: string,
    currentFullContent: string)

  /** `summary_box.get("1.0", tk.END).strip()` for a text box holding `display`. */
  function ShownText(cc: CharClasses, display: string): string
  {
    Strip(cc, display + "\n")
  }

  /** The number of sentences asked of the summarizer (app.py:173). */
  const SummarySentences: nat := 3

  class App {
    var articles: seq<Article>
    var newsList: seq<string>
    var display: string
    var currentSummary: string
    var currentArticleUrl: string
    var currentFullContent: string
    var isReading: bool
    /** How many times `init_tts_engine()` re-initialised the engine since start-up. */
    var engineGeneration: nat
    var playbacks: seq<string>

    /** The listbox shows the articles' titles, at most ten of them. */
    ghost predicate Valid()
      reads this
    {
      |articles| <= MaxArticles && newsList == Titles(articles)
    }

    function Speaker(): Speech
      reads this
    {
      Speech(isReading, engineGeneration, playbacks)
    }

    function View(): Screen
      reads this
    {
      Screen(articles, newsList, display, currentSummary, currentArticleUrl, currentFullContent)
    }

    /** The module-level initialisation (app.py:20-25, 255). */
    constructor ()
      ensures Valid()
      ensures View() == Screen([], [], "", "", "", "")
      ensures Speaker() == Speech(false, 0, [])
    {
      articles, newsList, display := [], [], "";
      currentSummary, currentArticleUrl, currentFullContent := "", "", "";
      isReading, engineGeneration, playbacks := false, 0, [];
    }

    /** `stop_reading` (app.py:27-32). */
    method StopReading()
      requires Valid()
      modifies this
      ensures Valid()
      ensures View() == old(View())
      ensures Speaker() == Stopped(old(Speaker()))
      ensures !isReading && engineGeneration == old(engineGeneration) + 1 && playbacks == old(playbacks)
    {
      isReading := false;
      engineGeneration := engineGeneration + 1;
    }

    /** `read_current_content` (app.py:34-61): the text read is the text box's
        contents, stripped; Tk's `get("1.0", END)` ends them with a newline. */
    method ReadCurrentContent(cc: CharClasses)
      requires Valid()
      modifies this
      ensures Valid()
      ensures View() == old(View())
      ensures Speaker() == AfterRead(old(Speaker()), ShownText(cc, old(display)))
      ensures old(isReading) ==> !isReading && engineGeneration == old(engineGeneration) + 1 && playbacks == old(playbacks)
      ensures !old(isReading) && ShownText(cc, old(display)) == [] ==> Speaker() == old(Speaker())
      ensures !old(isReading) && ShownText(cc, old(display)) != [] ==>
              && isReading && engineGeneration == old(engineGeneration)
              && playbacks == old(playbacks) + [ShownText(cc, old(display))]
    {
      ghost var before := Speaker();
      if isReading {
        StopReading();
        assert Speaker() == Stopped(before);
        return;
      }
      var content := ShownText(cc, display);
      if content == [] {
        return;
      }
      isReading := true;
      playbacks := playbacks + [content];
      assert Speaker() == Speech(true, before.reinits, before.playbacks + [content]);
    }

    /** A playback thread finishing, as written (app.py:50-58). */
    method ReadingTaskEnds(failed: bool)
      requires Valid()
      modifies this
      ensures Valid()
      ensures View() == old(View())
      ensures Speaker() == AfterPlayback(old(Speaker()), failed)
      ensures isReading == old(isReading)
    {
      if failed {
        engineGeneration := engineGeneration + 1;
      }
    }

    /** A playback thread finishing, as evidently intended: the flag is cleared. */
    method ReadingTaskEndsIntended(failed: bool)
      requires Valid()
      modifies this
      ensures Valid()
      ensures View() == old(View())
      ensures Speaker() == AfterPlaybackIntended(old(Speaker()), failed)
      ensures !isReading
    {
      if failed {
        engineGeneration := engineGeneration + 1;
      }
      isReading := false;
    }

    /** The user typing into the text box, which is an editable `tk.Text`
        (app.py:238-246): Read speaks whatever the box then holds. */
    method EditText(text: string)
      requires Valid()
      modifies this
      ensures Valid()
      ensures Speaker() == old(Speaker())
      ensures View() == old(View()).(display := text)
    {
      display := text;
    }

    /** `get_news` (app.py:137-160); `parseFeed` is `feedparser.parse`, applied to the WHO feed. */
    method GetNews(parseFeed: string -> Feed, plainText: string -> string) returns (outcome: FeedOutcome)
      requires Valid()
      modifies this
      ensures Valid()
      ensures Speaker() == old(Speaker())
      ensures display == old(display) && currentSummary == old(currentSummary)
      ensures currentArticleUrl == old(currentArticleUrl) && currentFullContent == old(currentFullContent)
      ensures var feed := parseFeed(FeedUrl);
              feed.bozo ==> outcome == FeedError && View() == old(View())
      ensures var feed := parseFeed(FeedUrl);
              !feed.bozo && feed.entries == [] ==> outcome == NoNews && View() == old(View())
      ensures var feed := parseFeed(FeedUrl);
              !feed.bozo && feed.entries != [] ==>
              && (outcome == Loaded || outcome.EntryError?)
              && articles == Converted(Newest(feed), plainText)
              && newsList == Titles(articles)
              && (outcome == Loaded <==> forall i :: 0 <= i < |Newest(feed)| ==> Readable(Newest(feed)[i]))
      ensures var feed := parseFeed(FeedUrl);
              outcome.EntryError? ==>
              && outcome.index < |Newest(feed)| && !Readable(Newest(feed)[outcome.index])
              && (forall j :: 0 <= j < outcome.index ==> Readable(Newest(feed)[j]))
    {
      var feed := parseFeed(FeedUrl);
      if feed.bozo {
        return FeedError;
      }
      if feed.entries == [] {
        return NoNews;
      }
      // The list box and `articles` are cleared, then refilled entry by entry;
      // an AttributeError leaves them holding the entries read so far.
      var loaded, failedAt := ReadEntries(Newest(feed), plainText);
      articles, newsList := loaded, Titles(loaded);
      outcome := if failedAt.Some? then EntryError(failedAt.value) else Loaded;
    }

    /** `summarize_article` (app.py:162-179) for the listbox selection; `lsa`
        is the LSA summarizer asked for three sentences, `None` where it
        raises. The URL is recorded before the summarizer runs, so it is
        updated even then; the exception ends the handler. */
    method SummarizeArticle(selection: seq<nat>, lsa: (string, nat) -> Option<seq<string>>)
      requires Valid()
      requires selection != [] ==> selection[0] < |newsList|
      modifies this
      ensures Valid()
      ensures Speaker() == old(Speaker())
      ensures selection == [] ==> View() == old(View())
      ensures selection != [] ==>
              var article := old(articles)[selection[0]];
              && currentArticleUrl == article.link
              && articles == old(articles) && newsList == old(newsList)
              && currentFullContent == old(currentFullContent)
      ensures selection != [] ==>
              var article := old(articles)[selection[0]];
              match lsa(article.text, SummarySentences)
              case None =>
                display == old(display) && currentSummary == old(currentSummary)
              case Some(sentences) =>
                currentSummary == Join("\n", sentences) && display == SummaryDisplay(article.title, sentences)
    {
      if selection == [] {
        return;
      }
      var index := selection[0];
      var article := articles[index];
      currentArticleUrl := article.link;
      var summary := lsa(article.text, SummarySentences);
      if summary.None? {
        return;
      }
      var summaryText := Join("\n", summary.value);
      currentSummary := summaryText;
      display := SummaryHeading(article.title) + summaryText;
    }

    /** `show_full_article` (app.py:125-133): fetch the current article's page.
        The assignment at app.py:128 binds a local, so the global
        `current_full_content` keeps its value. */
    method ShowFullArticle<E>(cc: CharClasses, get: (string, nat) -> HttpResult, parse: string -> Option<Page<E>>)
      requires Valid()
      modifies this
      ensures Valid()
      ensures Speaker() == old(Speaker())
      ensures old(currentArticleUrl) == "" ==> View() == old(View())
      ensures old(currentArticleUrl) != "" ==>
              && display == FullArticleText(cc, get(old(currentArticleUrl), RequestTimeoutSeconds), parse)
              && articles == old(articles) && newsList == old(newsList)
              && currentSummary == old(currentSummary) && currentArticleUrl == old(currentArticleUrl)
              && currentFullContent == old(currentFullContent)
    {
      if currentArticleUrl != "" {
        var fullContent := FetchFullArticle(cc, currentArticleUrl, get, parse);
        display := fullContent;
      }
    }
  }
}
