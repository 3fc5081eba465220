# kexue-fm-mirror, modelled in Dafny

kexue-fm-mirror mirrors the blog kexue.fm as markdown and translates it into English. Three scripts do the work, and each is the same ledger-driven batch loop:

- **scrape_kexue.py** lists the newest posts of the index page. It skips every post whose id already has an entry in the ledger `scraped_posts.json`. For each other post it scrapes the page into a markdown document with a fixed header, writes `kexue_fm_zh_cn/{id}.md`, and appends one ledger entry.
- **translate_with_github_api.py** lists the source posts that have no entry in `translated_posts_github.json`. It asks the GitHub chat completion endpoint for a translation. When none comes back, it wraps the original text in a fixed banner and footer instead. It writes `kexue_fm_en_us/{id}.md` with a translation header and records the post.
- **translate_posts.py** lists the source posts that have no entry in `translated_posts.json`. It runs the external `claude-code-actions` tool. It records a post only when the tool exits with code 0 and the target file then exists. In that case it first puts the translation header in front of the file.

## How the model is built

The file system is a value:

- a ledger file is `Option<seq<Entry>>`, which is `None` while the file does not exist;
- a directory is a map from post id to the content of `{id}.md`.

Each script's class (`KexueScraper`, `GitHubTranslator`, `PostTranslator`) holds these as fields. Its methods change them in place. Each method's postcondition ties the new state to a pure function of the old state:

- one post is a step function, `ScrapeStep` or `TranslateStep`;
- a whole run is `ScrapeRun` or `TranslateRun`, which folds the step over the listing.

The properties of the pipeline are proved as lemmas about those functions:

- one ledger entry per success;
- failures are not recorded, so they are retried;
- a second run does nothing;
- the count equals the number of appended entries;
- ledger ids stay distinct.

What the outside world decides comes in as parameters:

- the index page, or `None` when fetching it failed;
- `urljoin`;
- what fetching the k-th listed post returned;
- `clean_html`;
- the clock at the k-th listed post;
- the reply of the chat endpoint to the k-th listed post;
- what the external tool did for the k-th listed post.

The two translators share the ledger type and the functions over it, the listing of pending posts and the header format, in module `Translation`. Each translator keeps its own ledger file (`translated_posts_github.json` and `translated_posts.json`). `Text` holds the string helpers (digits, prefixes, splitting off lines). `Pipeline` holds the generic fold over a listing, the distinct-elements predicate and counting.

Behaviour of the code that the model keeps as written:

- A tool run counts when the tool exits with code 0 and the target file exists afterwards (translate_posts.py:103-107), even when that file is empty or was left by an earlier run. That file gets the header and the post is recorded.
- The GitHub translator records every post whose source file exists, including those that fell back to the wrapped original.
- The translators list the stems of the source files (translate_with_github_api.py:29-30) and then look for `{stem}.md` (lines 115-118). A post id is the file name without ".md", so the stem is the id, with one exception. The scraper writes `.md` for a post whose id is empty (scrape_kexue.py:59, 196-200), and pathlib gives that file the stem ".md". Its translation then looks for `.md.md` and fails, unless that file exists. The post is never recorded and is listed again on every run. In the model this file is the *stuck* file. The GitHub translator's count is the number of pending posts other than the stuck one.

## Model

| member | source | states |
|---|---|---|
| KexueScrape.FirstDigit | scrape_kexue.py:58 | the position of the first ASCII digit of the URL: no digit before it, a digit at it, or the URL's length when it has none |
| KexueScrape.DigitRunEnd | scrape_kexue.py:58 | the run of digits from a position cannot be extended: all digits up to the result, a non-digit or the end at it |
| KexueScrape.LastSegment | scrape_kexue.py:59 | the last element of `url.split('/')`: a suffix of the URL with no slash, preceded by a slash whenever it is shorter than the URL |
| KexueScrape.PostIdShape | scrape_kexue.py:55-59 | ExtractPostId: with a digit in the URL the id is its first maximal digit run (non-empty, all digits, a substring, nothing before it is a digit); without one it is the text after the last slash, empty when the URL ends in a slash |
| KexueScrape.FirstDigitRunUnique | scrape_kexue.py:58 | the first maximal digit run of a URL is unique, so the shape above determines the id |
| KexueScrape.Candidates | scrape_kexue.py:35 | the `<article>` elements when there are any, else the `div.post` elements when there are any, else the `<h2>` elements |
| KexueScrape.ListedPosts | scrape_kexue.py:37-48 | the posts of the articles that hold a link, in page order and one per such article (the in-order filter Kept), an href not starting with "http" joined to the base URL; every listed post comes from a linked article and every linked article is listed |
| KexueScrape.Newest | scrape_kexue.py:37 | the first twenty candidates in page order, or all of them when there are fewer |
| KexueScrape.PostListShape | scrape_kexue.py:26-53 | PostList: at most twenty posts; a failed index fetch gives none; otherwise the posts of the linked candidates among the first twenty, in page order and one per linked candidate |
| KexueScrape.GetPostList | scrape_kexue.py:26-53 | the loop over the first twenty candidates builds exactly that list |
| KexueScrape.FirstFound | scrape_kexue.py:90-94 | the first locator in the fixed order that matches an element, none before it matching |
| KexueScrape.PostTitle | scrape_kexue.py:71-72 | the text of the h1 when there is one, else of the h2, else "无标题" |
| KexueScrape.PostDate | scrape_kexue.py:75-76 | the text of the `<time>`, else of `span.date`, else of `div.post-date`, else today's date |
| KexueScrape.SelectedMarkup | scrape_kexue.py:79-99 | the markup of the first content selector that matches, in the fixed order, when it is not empty; with no selector matching, the body's markup, or "" without a body |
| KexueScrape.ScrapedMarkdownRoundTrip | scrape_kexue.py:105-114 | ScrapedMarkdown: title, URL, publication date and scrape time are recovered from their fixed header lines, and the body from what follows the `---` line |
| KexueScrape.ScrapePost | scrape_kexue.py:61-120 | a failed fetch gives (None, None); a fetched page gives the page's title and a non-empty document |
| KexueScrape.ScrapedPostReadsBack | scrape_kexue.py:102-116 | the document of a fetched page reads back as its title, URL, date, scrape time and cleaned content |
| KexueScrape.SucceedsIffTitled | scrape_kexue.py:192-194 | the run saves a post exactly when its page was fetched and its title text is not empty |
| KexueScrape.LoadScrapedPosts | scrape_kexue.py:144-149 | no ledger file loads as the empty ledger; otherwise the stored entries |
| KexueScrape.IsAlreadyScraped | scrape_kexue.py:164-167 | holds exactly when some ledger entry has this id |
| KexueScrape.AppendEntry | scrape_kexue.py:151-162 | the new ledger is the old one with exactly the new entry at the end; the posts directory is unchanged |
| KexueScrape.ScrapeStepEffect | scrape_kexue.py:182-206 | ScrapeStep: a recorded id is skipped with nothing changed; an unrecorded id is saved exactly when the scrape gave a title and content, which writes `{id}.md` and appends exactly one entry; a failure changes neither the ledger nor the files |
| KexueScrape.UnsavedStepKeepsStore | scrape_kexue.py:186-206 | a step that did not save leaves the store as it was, and a failed step was for an id not yet recorded |
| KexueScrape.StepLedgerIds | scrape_kexue.py:194-206 | the old ledger is a prefix of the new one, which has one entry, with the post's id, more exactly when the post was saved |
| KexueScrape.StepFiles | scrape_kexue.py:194-203 | a step adds or rewrites only `{id}.md` of a saved post, and every other file keeps its content |
| KexueScrape.PostIds | scrape_kexue.py:182-184 | one id per listed post |
| KexueScrape.PostIdsAt | scrape_kexue.py:184 | the id at each position is the id extracted from that post's URL |
| KexueScrape.ScrapeRun | scrape_kexue.py:182-206 | the run over the first `n` listed posts has one outcome per post |
| KexueScrape.RunUnfold | scrape_kexue.py:182-206 | each listed post is one step on the store the earlier posts left |
| KexueScrape.RunOutcomeAt | scrape_kexue.py:182-206 | the outcome at a position is that of its step on the store the earlier positions left |
| KexueScrape.SavedIds | scrape_kexue.py:194-206 | one id per saved position |
| KexueScrape.SavedIdsStep | scrape_kexue.py:194-206 | one more position adds its id exactly when it was saved |
| KexueScrape.SavedIdsAvoid | scrape_kexue.py:194-206 | an id no position has is never among the saved ids |
| KexueScrape.RunAppendsSavedEntries | scrape_kexue.py:182-206 | the ledger ids grow by exactly the ids of the saved posts, in listing order: one entry per success and none otherwise |
| KexueScrape.RunKeepsOldEntries | scrape_kexue.py:182-206 | a run never rewrites or drops an entry: the ledger at any point is a prefix of every later ledger |
| KexueScrape.RunWritesSavedFiles | scrape_kexue.py:194-203 | the posts directory gains exactly the files of the saved ids, and every other file keeps its content |
| KexueScrape.RunCountIsAppended | scrape_kexue.py:206-212 | the number of saved posts is the number of ledger entries appended |
| KexueScrape.RunKeepsIdsDistinct | scrape_kexue.py:186-203 | the ledger is re-read before every post, so a ledger without duplicate ids stays so, even when the listing repeats an id |
| KexueScrape.StepRecords | scrape_kexue.py:186-203 | after a step that did not fail, the post's id is in the ledger |
| KexueScrape.StepAtRecords | scrape_kexue.py:186-203 | a listed post that did not fail has its id in the ledger right after its step |
| KexueScrape.PositionRecorded | scrape_kexue.py:186-203 | a listed post that did not fail has its id in the ledger at the end of the run |
| KexueScrape.RunCoversListing | scrape_kexue.py:182-206 | after a run every listed id is in the ledger, except the ids whose scrape failed |
| KexueScrape.RunOverRecordedListing | scrape_kexue.py:186-189 | a run over posts that are all recorded skips every one and changes nothing |
| KexueScrape.SecondRunSavesNothing | scrape_kexue.py:169-212 | when no post failed, a second run over the same listing skips everything and changes nothing, whatever the pages and the clock then give |
| KexueScrape.StepKeepsAbsent | scrape_kexue.py:194-203 | a step for another id does not add an id to the ledger |
| KexueScrape.StepTriesAbsent | scrape_kexue.py:186-192 | a post whose id is not recorded is not skipped: it is scraped |
| KexueScrape.RunKeepsAbsent | scrape_kexue.py:182-206 | an id that no post in a stretch of the listing has stays out of the ledger over that stretch |
| KexueScrape.StepAtFailed | scrape_kexue.py:192-206 | a failed post's id is not in the ledger right after its step |
| KexueScrape.FailedPostNotRecorded | scrape_kexue.py:192-206 | a failed post is not recorded at the end of the run, unless a later post with the same id was saved |
| KexueScrape.FailedPostIsRetried | scrape_kexue.py:186-192 | an id missing from the ledger, such as a failed one, is scraped again by the next run at its first listing position |
| KexueScrape.RunAfterOne | scrape_kexue.py:182-206 | one pass of run's loop body, with scrape_post's result for that post, extends the run by that post and counts it when it was saved |
| KexueScrape.KexueScraper.constructor | scrape_kexue.py:16-24 | the scraper starts on the given ledger file and posts directory |
| KexueScrape.KexueScraper.SaveScrapedPost | scrape_kexue.py:151-162 | reloads the ledger, appends exactly one `{id, title, url, scraped_at}` entry and writes it back; the files are unchanged |
| KexueScrape.KexueScraper.ScrapeOne | scrape_kexue.py:182-206 | one pass of run's loop body changes the files and the ledger exactly as the step function says |
| KexueScrape.KexueScraper.Run | scrape_kexue.py:169-212 | the new state is the run over the post list, and the returned count is both the number of saved posts and the number of entries appended |
| Translation.LoadTranslatedPosts | translate_with_github_api.py:36-41 | no ledger file loads as the empty ledger; otherwise the stored entries (the same in translate_posts.py:32-37) |
| Translation.LedgerIds | translate_with_github_api.py:25 | the ids of the ledger entries, one per entry, in ledger order |
| Translation.TranslatedIds | translate_with_github_api.py:25 | an id is translated exactly when some ledger entry has it |
| Translation.SourceIds | translate_with_github_api.py:28-30 | a post id is a source id exactly when its file `{id}.md` exists; a missing source directory has none |
| Translation.StemsCollide | translate_with_github_api.py:29-30 | Stem: the stem of `{id}.md` is the id exactly when the id is not empty; two files share a stem only when they are `.md` and `.md.md` |
| Translation.ListedStemsDistinct | translate_posts.py:18-30 | when `.md` and `.md.md` are not both source files, the listed stems are distinct |
| Translation.GetUntranslatedPosts | translate_with_github_api.py:22-34 | Pending: lists the stems of exactly the source files whose stem has no ledger entry, each file once, in some order; nothing when the source directory is missing (the same in translate_posts.py:18-30) |
| Translation.ListingSize | translate_with_github_api.py:22-34 | a listing has as many entries as there are pending source files |
| Translation.NothingPendingListsNothing | translate_with_github_api.py:161-165 | the listing is empty exactly when nothing is pending, which is when translate_all returns 0 at once |
| Translation.AppendEntry | translate_with_github_api.py:43-52 | the new ledger is the old one with exactly one `{id, translated_at}` entry at the end; both directories are unchanged (the same in translate_posts.py:39-48) |
| Translation.SucceededStep | translate_with_github_api.py:170-174 | one more listed id adds it to the successful ids exactly when it succeeded |
| Translation.PendingAfterRun | translate_posts.py:150-153 | when a run records exactly the stems of its successful files, a translated file is no longer pending and nothing outside the listing is; when no two files share a stem, exactly the failed files are still pending and a ledger without duplicate ids stays so |
| Translation.TranslatedDocRoundTrip | translate_with_github_api.py:140-152 | TranslatedDoc: the translation header gives back the post id, the date and the service line, and the text follows it unchanged |
| GitHubTranslate.TranslateWithGithubApi | translate_with_github_api.py:86-95 | a translation comes back exactly for a 200 response whose body has a first choice, and it is that choice's content; another status or an exception gives None |
| GitHubTranslate.SimpleTranslate | translate_with_github_api.py:97-111 | the original text, verbatim, between the "[TRANSLATED FROM CHINESE]" banner and the "Professional translation needed" footer |
| GitHubTranslate.ContentFallback | translate_with_github_api.py:132-137 | TranslatedContent: a non-empty translation is used as it is; no translation or an empty one falls back to the wrapped original; the text is never empty |
| GitHubTranslate.TranslateStepEffect | translate_with_github_api.py:113-157 | TranslateStep: a missing source file `{id}.md` gives False with nothing changed; otherwise True, the target file is the header followed by the translated text, and exactly one entry is appended |
| GitHubTranslate.TranslatedPostReadsBack | translate_with_github_api.py:140-152 | the written target file reads back as the post id, the date, "GitHub API" and the translated text |
| GitHubTranslate.TranslateRun | translate_with_github_api.py:159-177 | a run over the first `n` listed ids has one result per id |
| GitHubTranslate.TranslateRunUnfold | translate_with_github_api.py:170-174 | each listed id is one step on the store the earlier ids left |
| GitHubTranslate.TranslateStepSummary | translate_with_github_api.py:113-157 | a step keeps the source; it records the id and writes only its target file exactly when the source file exists |
| GitHubTranslate.TranslateStepOutcome | translate_with_github_api.py:118-120 | a step succeeds exactly when the source file exists, and it never changes the source |
| GitHubTranslate.TranslateRunKeepsSource | translate_with_github_api.py:170-174 | a run never changes the source directory |
| GitHubTranslate.TranslateRunLedger | translate_with_github_api.py:170-174 | the ledger ids grow by exactly the successful ids, in listing order |
| GitHubTranslate.TranslateRunOutcomes | translate_with_github_api.py:170-174 | each listed id succeeds exactly when the source file it names exists |
| GitHubTranslate.TranslateRunFiles | translate_with_github_api.py:151-152 | the target directory gains exactly the files of the successful ids, and every file not listed keeps its content |
| GitHubTranslate.TranslateAllCoversPending | translate_with_github_api.py:159-177 | over a listing of the pending files, a file is translated exactly when it is not the stuck one; the count is the number of pending files other than it, and afterwards only it can still be pending; without a file `.md` the ledger gains exactly the listed ids and nothing is pending; distinct ledger ids stay distinct when no two files share a stem |
| GitHubTranslate.ListedOutcomes | translate_with_github_api.py:115-120 | each listed file is translated exactly when it is not the stuck one |
| GitHubTranslate.CountSucceeded | translate_with_github_api.py:169-177 | when exactly the non-stuck files succeed, the count is the number of pending files other than the stuck one |
| GitHubTranslate.PendingAfterTranslateAll | translate_with_github_api.py:159-177 | after translate_all the pending files are those pending before that are stuck, and distinct ledger ids stay distinct when no two files share a stem |
| GitHubTranslate.AllListedRecorded | translate_with_github_api.py:151-157 | without a file `.md` the ledger gains exactly the listed ids, in listing order |
| GitHubTranslate.SecondRunFindsNothing | translate_with_github_api.py:161-165 | after translate_all the next listing is empty, so a second run returns 0, except that a pending stuck file is listed again on every run |
| GitHubTranslate.TranslateAfterOne | translate_with_github_api.py:170-174 | one pass of the loop body extends the run by one id and counts it when it succeeded |
| GitHubTranslate.GitHubTranslator.constructor | translate_with_github_api.py:13-17 | the translator starts on the given directories and ledger file |
| GitHubTranslate.GitHubTranslator.SaveTranslatedPost | translate_with_github_api.py:43-52 | reloads the ledger, appends exactly one entry and writes it back; the directories are unchanged |
| GitHubTranslate.GitHubTranslator.TranslatePost | translate_with_github_api.py:113-157 | changes the target directory and the ledger, and returns, exactly as the step function says |
| GitHubTranslate.GitHubTranslator.TranslateAll | translate_with_github_api.py:159-177 | lists the pending files and runs over their stems; the count is the number of files pending before the run other than the stuck one, and only that one can be pending after it |
| ClaudeTranslate.AfterTool | translate_posts.py:96-101 | the tool writes at most the post's own target file and leaves every other target file as it was |
| ClaudeTranslate.TranslateStepEffect | translate_posts.py:50-138 | TranslateStep: True exactly when the source file exists, the tool exited with 0 and the target file exists afterwards; then the target is the header followed by what the file held, and exactly one entry is appended; otherwise the ledger is unchanged, and a missing source file changes nothing at all |
| ClaudeTranslate.TranslatedPostReadsBack | translate_posts.py:107-124 | after a success the target file reads back as the post id, the date, "claude-code-actions" and the tool's output |
| ClaudeTranslate.TranslateStepSummary | translate_posts.py:50-138 | a step keeps the source, and records the id exactly when it returns True |
| ClaudeTranslate.TranslateRun | translate_posts.py:140-156 | a run over the first `n` listed ids has one result per id |
| ClaudeTranslate.TranslateRunUnfold | translate_posts.py:151-153 | each listed id is one step on the store the earlier ids left |
| ClaudeTranslate.TranslateRunKeepsSource | translate_posts.py:151-153 | a run never changes the source directory |
| ClaudeTranslate.TranslateRunLedger | translate_posts.py:151-153 | the ledger ids grow by exactly the successful ids, in listing order |
| ClaudeTranslate.TranslateAllRecordsSuccesses | translate_posts.py:140-156 | the count is the number of entries appended; a translated file is no longer pending and nothing outside the listing is; when no two files share a stem, exactly the failed files are still pending and distinct ledger ids stay distinct |
| ClaudeTranslate.FailedPostIsRelisted | translate_posts.py:18-30 | a source file whose translation failed is listed again by the next run, when no two files share a stem |
| ClaudeTranslate.TranslateAfterOne | translate_posts.py:151-153 | one pass of the loop body extends the run by one id and counts it when it succeeded |
| ClaudeTranslate.PostTranslator.constructor | translate_posts.py:13-16 | the translator starts on the given directories and ledger file |
| ClaudeTranslate.PostTranslator.SaveTranslatedPost | translate_posts.py:39-48 | reloads the ledger, appends exactly one entry and writes it back; the directories are unchanged |
| ClaudeTranslate.PostTranslator.TranslatePost | translate_posts.py:50-138 | changes the target directory and the ledger, and returns, exactly as the step function says |
| ClaudeTranslate.PostTranslator.TranslateAll | translate_posts.py:140-156 | lists the pending files and runs over their stems; the count is the number of ledger entries appended |

## Left out

- Fetching the index page and the post pages, the HTTP session and its headers, and the chat completion request are not modelled. Each is an abstract outcome: an index page or `None`, a post page or a failed fetch, a status code with an optional first choice or an exception.
- HTML parsing is abstracted. A page is the first element each selector picks. A candidate element holds its first `<a href>` or none.
- `clean_html` is an uninterpreted function: tag removal, the `ad|advertisement|banner` class filter and the html2text conversion all sit inside it. So is `urljoin`.
- KexueScrape.ExtractPostId: `\d` is modelled as the ASCII digits 0-9, while Python's `\d` also matches other Unicode decimal digits.
- Timestamps are parameters. The clock gives one moment per listed post, with its date, its date and time, and its ISO form. The scraper reads the clock up to three times for one post (scrape_kexue.py:76, 109, 158). The model does not capture that these readings can differ.
- The two-second pause after each saved post and all logging are left out.
- JSON details are left out: `ensure_ascii`, indentation, and a ledger file that does not parse, which raises in the scripts.
- File encodings, and read and write errors other than a missing file, are left out.
- Directories are maps from post id to content. Only `.md` files exist in them. The `os.makedirs` and `mkdir` calls are not modelled, because a map needs no directory.
- The prompt texts, the model name and the 0.3 temperature of the requests are opaque payloads of the outside call.
- The `GITHUB_TOKEN` check in the GitHub translator's constructor is not modelled. Neither is the `__main__` handler that writes `translation_error.md` when construction or the run raises.
- The external tool's captured output and its error message are left out. Only its return code, whether it raised, and what it left in the target file are modelled. The tool is assumed to write nothing but the post's own target file (ClaudeTranslate.AfterTool). ClaudeTranslate.TranslateRunKeepsSource and the statements about other target files rely on that.
- GitHubTranslate.GitHubTranslator.TranslateAll, ClaudeTranslate.PostTranslator.TranslateAll: the order in which `glob` lists the source files is unspecified. The listing is chosen nondeterministically, each pending post exactly once, and the run is stated over that listing.
- ClaudeTranslate.FailedPostIsRelisted, ClaudeTranslate.TranslateAllRecordsSuccesses: when both `.md` and `.md.md` are source files, both are listed under the stem ".md". The run then handles `.md.md` twice. One success records both, so a failed file is not listed again, and the ledger can hold ".md" twice. These members state exactly-the-failed-files-stay-pending and distinct ledger ids only for source directories without that pair.
- Translation.PendingAfterRun, GitHubTranslate.TranslateAllCoversPending: distinct ledger ids are likewise kept only without that pair.
