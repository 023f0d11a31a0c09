# Health News Summarizer — a Dafny model of its logic

The application is a single Tk window. It fetches the WHO health-news RSS feed
and lists up to ten titles. When a title is selected it shows an extractive
summary of that article. On request it downloads the article page, extracts
and cleans the main text, and reads the text box aloud. This project models
the parts of `app.py` whose behaviour can be stated exactly:

- the text cleaner `clean_text` (module `TextCleaner`);
- the selector search and the paragraph filter and join of
  `extract_important_content` (module `ContentExtractor`);
- the composition in `fetch_full_article` (module `ArticleFetcher`);
- the entry-to-article mapping of `get_news` and the summary text of
  `summarize_article` (module `NewsFeed`);
- the global state and the handlers `get_news`, `summarize_article`,
  `show_full_article`, `read_current_content` and `stop_reading`, plus the end
  of the playback thread (module `HealthNewsApp`, class `App`).

`Strings` holds the sequence helpers they share: order-preserving filtering,
`sep.join(parts)`, and `s.split(c)` as the inverse of a one-character join.
`Wrappers` holds the `Option` type.

Every library call is a parameter. Python's `\w` and `\s` are Unicode-aware,
so they are the two predicates of a `CharClasses` value. The only fact assumed
about them is that the plain space is whitespace. `str.strip` uses the same
whitespace predicate as `\s`; CPython implements both with one
character-class test.

- The HTML parser is a `Page`: what `select_one(selector)` finds, what `body`
  is, and the `get_text(strip=True)` texts of the paragraph and heading
  elements left in a container once its boilerplate is decomposed.
- The HTTP request is `get: (string, nat) -> HttpResult`, given the URL and
  the 10-second timeout. Parsing is `parse: string -> Option<Page<E>>`.
- `feedparser.parse` is `parseFeed: string -> Feed`, applied to the WHO feed
  URL. `BeautifulSoup(content).get_text()` is `plainText`.
- The LSA summarizer is `lsa: (string, nat) -> Option<seq<string>>`. `None`
  stands for an exception it raises, for example when the tokenizer's
  language data is missing.
- The speech engine is a count of its re-initialisations, that is, of the
  `init_tts_engine()` calls after start-up. pyttsx3 may hand back the same
  driver object each time, so the count is not a count of distinct engines.
  The playback threads are the sequence of texts handed to them.
- The text box is editable, so the user can change what Read will speak
  (`App.EditText`).

Notes on the code as written:

- `clean_text` is not idempotent. `"a @ b"` becomes `"a  b"`: the symbol is
  deleted only after the spaces were collapsed. A second call gives `"a b"`.
  This is proved as `TextCleaner.CleanTextNotIdempotent`. So the claim that
  cleaning is idempotent does not hold of the code. Also, because `\w` is
  Unicode-aware, the output is not limited to ASCII letters and digits.
- `stop_reading` re-initialises the engine even when nothing is being read
  (app.py:27-32). A Stop press while idle is therefore not a no-op: the
  re-initialisation count moves.
- `is_reading = False` at app.py:58 and `current_full_content = ...` at
  app.py:128 assign locals. Only `engine` is declared global in that thread
  function (app.py:49), and `show_full_article` declares nothing. So the
  global flag is never cleared when a playback ends, and the global
  `current_full_content` never changes. See "## Findings".
- A feed entry with no `title`, or with neither `summary` nor `description`,
  makes `get_news` raise AttributeError partway through its loop. The list box
  and `articles` have already been cleared at that point. They keep the
  articles read before the bad entry (`FeedOutcome.EntryError`). Fetching is
  therefore all-or-nothing only for the `bozo` and empty-feed cases.
- When no content selector matches and the page has no body,
  `main_content.select` raises on `None`. `fetch_full_article` catches this
  and returns its fallback text.
- bs4 elements are always truthy, so `if main_content` is a test for `None`.

## Model

| member | source | states |
|---|---|---|
| `TextCleaner.CleanTextShape` | app.py:63-68 | the cleaned text is never longer than the input, and the only whitespace character left in it is the plain space |
| `TextCleaner.CleanTextTrimmed` | app.py:68 | the cleaned text neither starts nor ends with a space |
| `TextCleaner.CleanTextKeepsEssential` | app.py:65-67 | the non-whitespace characters of the output are exactly the input's non-whitespace characters that are word characters or one of `. , ! ? -`, in their original order |
| `TextCleaner.CleanTextNotIdempotent` | app.py:65-67 | cleaning `"a @ b"` gives `"a  b"`, and cleaning that again gives `"a b"`: the cleaner is not idempotent |
| `TextCleaner.CollapseShape` | app.py:65 | collapsing whitespace runs never lengthens the text, leaves no whitespace character other than the plain space, and leaves no two whitespace characters next to each other: each run became one space |
| `TextCleaner.CollapseKeepsNonSpace` | app.py:65 | for any character test that rejects whitespace (for instance "not whitespace"), collapsing whitespace runs keeps exactly the characters that pass it, in order |
| `TextCleaner.NotSpaceOfRemoveSymbols` | app.py:67 | after symbol removal, the non-whitespace characters are exactly the word characters and kept punctuation of the input |
| `TextCleaner.StripLeft` | app.py:68 | left strip returns a suffix, removes only whitespace, and leaves a non-whitespace first character |
| `TextCleaner.StripRight` | app.py:68 | right strip returns a prefix, removes only whitespace, and leaves a non-whitespace last character |
| `ContentExtractor.SelectMainContent` | app.py:72-87 | the selector loop with `break`, and the fallback to `body`, choose the container that the reference search `Container` defines |
| `ContentExtractor.FirstMatchNone` | app.py:81-84 | the search finds nothing exactly when no selector in the list matches |
| `ContentExtractor.FirstMatchAt` | app.py:81-84 | when selector k is the first in list order to match, its element is the one taken |
| `ContentExtractor.ExtractsFirstMatchingContainer` | app.py:81-103 | the extracted text comes from the first matching selector's element: its substantial paragraph texts joined by a blank line |
| `ContentExtractor.ExtractsBodyWhenNothingMatches` | app.py:86-103 | when no selector matches, the extracted text comes from `body` |
| `ContentExtractor.ExtractionFails` | app.py:86-90 | extraction raises exactly when no selector matches and there is no body |
| `ContentExtractor.CollectContentParts` | app.py:97-101 | the append loop keeps exactly the texts longer than 20 characters, in document order |
| `ContentExtractor.ContentParts` | app.py:97-103 | a text is kept exactly when it occurs among the paragraph texts and is longer than 20 characters; the result is `""` when none qualifies |
| `ContentExtractor.JoinedParts` | app.py:97-103 | parts keep document order: two stretches of paragraphs give their texts joined by a blank line |
| `ContentExtractor.ExtractImportantContent` | app.py:70-103 | the extractor returns the reference result `Extracted`, and `None` where the source raises |
| `ArticleFetcher.FetchFullArticle` | app.py:105-123 | the result is the fallback text exactly when the request, the status check, the parse or the extraction fails; otherwise it is the header `"📰 Important Details:\n\n"` followed by the cleaned extraction |
| `ArticleFetcher.FullArticleOnSuccess` | app.py:115-120 | on success the shown text starts with the header, is never the fallback, and is at most the header plus the extracted length |
| `NewsFeed.Newest` | app.py:153 | the loop reads the first min(10, n) entries, in feed order |
| `NewsFeed.ReadEntries` | app.py:153-159 | the loop yields one article per entry up to the first entry lacking a title or body; it reports that entry's index, or none when every entry is readable |
| `NewsFeed.ConvertedReadable` | app.py:154-159 | for readable entries each article is (title, plain text of `summary` if present else of `description`, `link` if present else `""`), in feed order |
| `NewsFeed.ConvertedStops` | app.py:154-159 | at the first unreadable entry the loop stops with exactly the articles of the entries before it |
| `NewsFeed.Titles` | app.py:159-160 | the list box holds one title per article, the same titles in the same order |
| `NewsFeed.SummaryDisplaySentences` | app.py:175-179 | the summary view starts with `"📰 " + title + "\n\n"`, and splitting the rest at newlines gives back the summary sentences |
| `Strings.Filter` | app.py:100-101 | filtering never lengthens a sequence and keeps only elements that pass the test |
| `Strings.FilterConcat` | app.py:98-101 | filtering distributes over concatenation, so kept elements stay in order |
| `Strings.JoinConcat` | app.py:103 | joining two non-empty runs of parts is joining each and putting the separator between them |
| `Strings.SplitJoin` | app.py:175 | splitting at the separator undoes a one-character join of a non-empty list of parts, none of which contains the separator (parts may be empty) |
| `HealthNewsApp.PlaybacksNeedReinit` | app.py:27-61 | over any sequence of Read, Stop and playback-end events, playbacks are only added, and between two playback starts there is always a re-initialisation of the engine. This holds as written only because a finished playback never clears the flag (app.py:58) |
| `HealthNewsApp.IntendedEndingSkipsReinit` | app.py:48-58 | with the flag cleared when a playback ends, Read, end, Read starts two playbacks with no re-initialisation between them, so the bound above fails |
| `HealthNewsApp.ReadTwiceToggles` | app.py:37-46 | two Read presses from idle start one playback and end idle with the engine re-initialised once |
| `HealthNewsApp.ReadAfterPlaybackOnlyStops` | app.py:48-58 | as written, a Read press after a playback has ended only stops and starts nothing |
| `HealthNewsApp.ReadAfterIntendedPlaybackRestarts` | app.py:48-58 | with the flag cleared when a playback ends, the same Read press starts a second playback |
| `HealthNewsApp.App.constructor` | app.py:20-25 | the start state: no articles, empty texts and URL, not reading, no re-initialisation yet, no playbacks |
| `HealthNewsApp.App.StopReading` | app.py:27-32 | the flag is cleared and the engine is re-initialised, even when idle; nothing else changes |
| `HealthNewsApp.App.ReadCurrentContent` | app.py:34-46 | while reading, a press stops; an empty stripped text box changes nothing; otherwise the flag is set and exactly one playback starts, on the stripped text box contents |
| `HealthNewsApp.App.ReadingTaskEnds` | app.py:48-58 | a playback ending as written: the engine is re-initialised after a failure, and the flag is left as it was |
| `HealthNewsApp.App.ReadingTaskEndsIntended` | app.py:48-58 | a playback ending as intended: the flag is cleared too |
| `HealthNewsApp.App.GetNews` | app.py:137-160 | a `bozo` feed or an empty feed leaves the articles and the list untouched, with the error or the information outcome. Otherwise the outcome is a full load or an entry error, and the articles become exactly the mapped first min(10, n) entries, up to the first entry that raises, whose index the outcome gives. The list shows their titles |
| `HealthNewsApp.App.SummarizeArticle` | app.py:162-179 | an empty selection changes nothing. Otherwise the current URL becomes the article's link. If the summarizer succeeds, the text box shows `"📰 " + title + "\n\n"` followed by the sentences it returned (three asked for, possibly fewer), joined by newlines. If it raises, nothing else changes |
| `HealthNewsApp.App.EditText` | app.py:238-246 | the user's edit replaces the text box contents and changes nothing else |
| `HealthNewsApp.App.ShowFullArticle` | app.py:125-133 | with no current URL nothing changes; otherwise the text box shows what `fetch_full_article` returns for that URL, and `current_full_content` keeps its value |

## Left out

- Tk widget construction, layout, styling and `mainloop` (app.py:183-257): these are presentation only. The list box and the text box are reduced to their contents. Message boxes are reduced to the outcome values of `GetNews` and to the no-op branches.
- `requests.get` and `feedparser.parse`: network I/O. Their results are parameters (`get`, `parseFeed`). The 10-second timeout is a constant, and timing out is one form of `TransportError`.
- BeautifulSoup parsing, CSS selection, `decompose` and `get_text`: a foreign library. The model uses their results, not the in-place tree surgery.
- The LSA summarizer (sumy): floating-point SVD ranking in a foreign library. Its result is an arbitrary function of the article text and the count 3: some sentences, or `None` where it raises. The exception report that Tk prints is not modelled.
- The pyttsx3 engine and the `threading.Thread` playback: device I/O and concurrency. A playback ending is a separate event (`ReadingTaskEnds`). Any interleaving of it with button presses is a sequence of events (`HealthNewsApp.Run`).
- `HealthNewsApp.App.EditText`: an edit replaces the whole text box contents in one step. Cursor movement, selection and keystroke-by-keystroke editing are not modelled, because only the resulting contents matter to Read.
- `print` diagnostics and the engine's speech rate of 150 words per minute: these have no effect on the state.
- `HealthNewsApp.App.GetNews`: reads the entries into a local sequence and then assigns `articles` and `news_list` once. The source clears them and appends entry by entry. No other code runs in between, so the resulting state is the same.
- `TextCleaner.CleanTextShape`: states that whitespace is only the plain space relative to the abstract `\s`, not to a fixed Unicode table. The two character classes are not modelled exactly.

## Findings

| source | as written | input that shows it | evidently intended | confidence | as-written member | corrected member |
|---|---|---|---|---|---|---|
| app.py:58 | `is_reading = False` in the thread's `finally` block binds a local, so the global flag stays `True` after a playback ends | press Read with text shown, let the speech finish, press Read again: the second press only stops, and nothing is read | the flag is cleared when playback ends, so the next Read press reads again | high (not executed) | `HealthNewsApp.ReadAfterPlaybackOnlyStops` | `HealthNewsApp.ReadAfterIntendedPlaybackRestarts` |
