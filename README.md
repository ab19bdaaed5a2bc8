# Instagram comment scraper: a verified model of its bookkeeping

`scrape_analyze.py` opens each configured Instagram profile in a browser and clicks its post
links. For each post it presses "Load more comments" until the button stops appearing, then
reads every rendered comment node. It saves the comments as one JSON file per profile, mapping
each username to a list of texts. The file also defines a sentiment helper and a
scroll-to-bottom helper that `main` does not call.

This project models the deterministic part of that script. The browser and the ML model are
replaced by the values they would report:

- `Scraper` (scraper.dfy) covers:
  - which posts are processed (`num_posts`, with Python's slice rules, negative stops included);
  - the "Load more comments" counter, from a sequence of wait outcomes (`Clicked` / `Timeout`);
  - how comment nodes fill the per-profile `results` map. A node is `Option<(username, text)>`, and `None` means the lookup raised `NoSuchElementException` or `StaleElementReferenceException`;
  - the `scroll_down` loop, from a sequence of measured page heights.
- `Sentiment` (sentiment.dfy) covers:
  - the token limit `max_length - 2`;
  - the parse of `int(label.split()[0])`, with Python's whitespace set and `int()` syntax for ASCII digits without its 4300-digit limit, and its two exceptions as a `Result`;
  - `analyze_sentiment` as a whole, with the tokenizer, `convert_tokens_to_string` and the classifier as function parameters.
- `OutputPath` (output_path.dfy) covers the file path built on line 203.
- `PySlice` (py_slice.dfy) holds Python's `s[:stop]`. `Wrappers` (wrappers.dfy) holds `Option` and `Result`.

The imperative loops of the source are Dafny methods with loops and invariants:

- `LoadMoreComments` is the `while True` counter;
- `CollectComments` is the `for` loop over comment nodes;
- `ScrapeComments` is the loop over posts;
- `ScrollDown` is the height loop.

Each method is proved equal to a specification function, or states its stopping condition
outright. The single expressions of the source are functions, and lemmas state what they mean.

- The code keeps duplicate comments. `results[username].append(comment_text)` on line 141 runs with no membership test.
- The code has no cross-profile merge, no sentiment buckets and no language filter. `langdetect` is imported on line 19 and never used.
- The code runs no scroll probe inside the comment loop, because `scroll_down` is never called.

## Model

| member | source | states |
|---|---|---|
| `Scraper.SelectPosts` | scrape_analyze.py:98-100 | the processed posts are a prefix of the found ones: all of them for -1, `min(n, |found|)` of them for `n >= 0`, and for `n < -1` all but the last `-n` (Python slice) |
| `Scraper.ClicksBeforeTimeout` | scrape_analyze.py:111-124 | the count is the position of the first timeout: every earlier wait was a click |
| `Scraper.ThreeClicksThenTimeout` | scrape_analyze.py:111-124 | three clicks then a timeout give a count of 3, whatever follows |
| `Scraper.LoadMoreComments` | scrape_analyze.py:111-124 | the loop stops on the first timeout, and `load_more_count` is the number of clicks before it |
| `Scraper.Record` | scrape_analyze.py:139-141 | recording `(u, t)` gives `u` an entry (created empty if absent) whose list is the old one with `t` appended; every other user's list is unchanged |
| `Scraper.AccumulateSpec` | scrape_analyze.py:131-145 | after the comment loop a user has an entry iff it had one or wrote an accepted node, and its list is the old list followed by the texts of its accepted nodes in order, duplicates kept |
| `Scraper.RejectedLeavesResults` | scrape_analyze.py:132-145 | a node whose lookup raised, or whose username or text is empty, leaves `results` unchanged |
| `Scraper.DuplicatesKept` | scrape_analyze.py:139-141 | the same comment extracted twice is stored twice |
| `Scraper.AccumulateAppend` | scrape_analyze.py:102-145 | one `results` map serves all posts of a profile: collecting two posts in turn equals collecting their nodes in one pass |
| `Scraper.AccumulateWellFormed` | scrape_analyze.py:138-141 | every stored username and text is non-empty and no user has an empty list |
| `Scraper.CollectComments` | scrape_analyze.py:129-145 | the loop over comment nodes computes exactly the accumulation of its nodes into the given map |
| `Scraper.ScrapeComments` | scrape_analyze.py:95-160 | the profile's results are the accumulation of the comment nodes of the selected posts, in order; all entries are well formed; each post's click count is its clicks before the first timeout |
| `Scraper.ScrollDown` | scrape_analyze.py:82-91 | the loop stops at the first measurement equal to the previous one; `last_height` is always the newest earlier measurement |
| `Sentiment.Truncate` | scrape_analyze.py:165-168 | the kept tokens are a prefix of the original: unchanged when within `max_length - 2`, otherwise exactly `max_length - 2` long (for `max_length >= 2`) |
| `Sentiment.TruncateIdempotent` | scrape_analyze.py:167-168 | truncating twice equals truncating once, for `max_length >= 2` |
| `Sentiment.TruncateBelowTwo` | scrape_analyze.py:167-168 | for `max_length < 2` the negative slice stop drops tokens from every non-empty list |
| `Sentiment.FirstWord` | scrape_analyze.py:171 | `split()[0]` fails exactly on an all-whitespace label; otherwise it is a non-empty, whitespace-free run of the label preceded only by whitespace and followed by whitespace or the end |
| `Sentiment.FirstWordOfJoin` | scrape_analyze.py:171 | whitespace, then a whitespace-free word, then whitespace or nothing: `split()[0]` is that word |
| `Sentiment.ParseInt` | scrape_analyze.py:171 | `int(word)` succeeds exactly when the word after an optional sign is a numeral (digits, single underscores between them); the magnitude is the numeral's value, a leading `-` negates it, and no other word gives a negative result |
| `Sentiment.ParseLabel` | scrape_analyze.py:171 | an empty or all-whitespace label raises IndexError; the parse succeeds exactly when `int()` accepts the first word, and the class is then that integer; otherwise it raises ValueError naming that first word |
| `Sentiment.ParseIntRoundTrip` | scrape_analyze.py:171 | `int(str(k)) == k` for every integer |
| `Sentiment.LabelRoundTrip` | scrape_analyze.py:171 | a label that starts with `str(k)` followed by whitespace or nothing parses to `k` |
| `Sentiment.LeadingSpacesIgnored` | scrape_analyze.py:171 | leading whitespace does not change the parse |
| `Sentiment.StarLabelParses` | scrape_analyze.py:170-171 | the labels "1 star" to "5 stars" parse to 1 to 5 ("4 stars" gives 4) |
| `Sentiment.AnalyzeSentiment` | scrape_analyze.py:164-171 | the class is parsed from the top label of the text rebuilt from all tokens when they fit in `max_length - 2`, and from the first `max_length - 2` tokens otherwise (for `max_length >= 2`) |
| `Sentiment.ShortTextUntouched` | scrape_analyze.py:165-169 | a text within the limit is classified from all of its tokens |
| `Sentiment.TruncatedTextSameClass` | scrape_analyze.py:164-171 | if the tokenizer reads back the truncated text as the truncated tokens, classifying that text gives the same result as the full function |
| `OutputPath.RStripSlashes` | scrape_analyze.py:203 | `rstrip('/')` gives a prefix with no trailing slash, and only slashes were removed |
| `OutputPath.LastSegment` | scrape_analyze.py:203 | `split('/')[-1]` is the slash-free suffix after the last slash, or the whole string |
| `OutputPath.FileName` | scrape_analyze.py:203 | the file name ends in `_comments.json` and contains no slash |
| `OutputPath.Join` | scrape_analyze.py:203 | `posixpath.join(a, b)`: an absolute `b` replaces `a`; otherwise the result is `a`, then one slash exactly when `a` is non-empty and does not end in one, then `b` |
| `OutputPath.OutputFileInFolder` | scrape_analyze.py:203 | the joined path is the run folder, then at most one slash, then the file name |
| `OutputPath.TrailingSlashesIgnored` | scrape_analyze.py:203 | URLs that differ only in trailing slashes give the same file |
| `OutputPath.ProfileUrlFileName` | scrape_analyze.py:203 | `prefix/name` with any number of trailing slashes is saved as `name_comments.json` |
| `OutputPath.SameFileIffSameName` | scrape_analyze.py:203 | two profiles share a file exactly when their URLs end in the same name |

## Left out

- Login, cookie files and pop-ups (scrape_analyze.py:23-78) are browser and file I/O.
- Every Selenium call and every wait and sleep is replaced by its outcome. This covers `driver.get`, `find_elements`, `post.click()`, `WebDriverWait` and `time.sleep`.
- Closing a post, with its fallback to `driver.back()` (lines 147-158), is navigation with no effect on the results.
- The progress messages (`print`) are not modelled. `ScrapeComments` returns each post's `load_more_count` in place of the message that reports it.
- Any other exception is out of scope: a failing click, or a failing `find_elements`, that propagates to the handler in `main` (lines 208-212) and ends the run.
- `main` is not modelled (lines 175-212), except its line-203 file name. This leaves out the YAML config, the timestamped run folder, `makedirs`, the JSON dump and driver shutdown, all I/O.
- The tokenizer, `convert_tokens_to_string` and the pipeline are function parameters. Their internals are foreign library code.
- push_to_sheets.py is Google Sheets network I/O with no logic of its own.
- Scraper.LoadMoreComments: requires that some wait times out. The source loops forever otherwise, so an input without a timeout describes no run that ends.
- Scraper.ScrapeComments: requires that every selected post's waits time out, for the same reason.
- Scraper.ScrollDown: requires that some measurement equals the previous one, for the same reason.
- Sentiment.ParseInt: accepts ASCII digits only. Python's `int()` also accepts other Unicode decimal digits. The model's labels use ASCII.
- The code has no cross-profile merge, set-valued deduplication, sentiment buckets or language filter, so none is modelled.
- Sentiment.ParseInt: has no length limit. Since CPython 3.11, `int(s)` raises ValueError for a decimal string of more than 4300 digits (`sys.int_info`), and the model accepts it.
- Sentiment.ParseIntRoundTrip: holds for every integer, while CPython 3.11 and later raise in `str(k)` and `int(s)` past 4300 digits.
- OutputPath.Join: models `posixpath.join`. On Windows `os.path.join` uses a backslash separator, so OutputPath.OutputFileInFolder's "at most one slash" holds only on POSIX systems.
- Scraper.ScrapeComments: `Results` is an unordered `map`. The source's dict keeps usernames in first-appearance order, the order `json.dump` writes them, and the model does not capture that order.
