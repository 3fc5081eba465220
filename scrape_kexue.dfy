/**
 * The kexue.fm scraper: the newest posts of the index page, the post id of
 * a URL, one post scraped into a markdown document with a fixed header, and
 * the run that skips every id already in the ledger `scraped_posts.json`,
 * writes `{id}.md` for each post it scrapes and appends one ledger entry
 * per saved post.
 *
 * The file system is a value (`ScrapeStore`): the ledger file (None while
 * it does not exist) and the posts directory as a map from post id to the
 * content of `{id}.md`. Network fetches, the clock, `clean_html` and
 * `urljoin` are parameters.
 */
module KexueScrape {
  import opened Wrappers
  import opened Text
  import opened Pipeline

  const BaseUrl: string := "https://kexue.fm"
  /** The index page yields at most this many posts. */
  const ListingLimit: nat := 20
  /** Title used when the page has neither an h1 nor an h2. */
  const Untitled: string := "无标题"

  // ---------------------------------------------------------------------
  // Post ids
  // ---------------------------------------------------------------------

  predicate HasDigit(s: string) {
    exists k :: 0 <= k < |s| && IsDigit(s[k])
  }

  /** Index of the first digit of `s`, or `|s|`. */
  function FirstDigit(s: string): (i: nat)
    ensures i <= |s|
    ensures forall k :: 0 <= k < i ==> !IsDigit(s[k])
    ensures i < |s| ==> IsDigit(s[i])
  {
    if s == [] || IsDigit(s[0]) then 0 else 1 + FirstDigit(s[1..])
  }

  /** End of the run of digits of `s` that starts at `i`. */
  function DigitRunEnd(s: string, i: nat): (j: nat)
    requires i <= |s|
    ensures i <= j <= |s|
    ensures forall k :: i <= k < j ==> IsDigit(s[k])
    ensures j < |s| ==> !IsDigit(s[j])
    decreases |s| - i
  {
    if i < |s| && IsDigit(s[i]) then DigitRunEnd(s, i + 1) else i
  }

  /** `s.split('/')[-1]`: the text after the last slash, all of `s` when it has none. */
  function LastSegment(s: string): (r: string)
    ensures '/' !in r
    ensures EndsWith(s, r)
    ensures |r| < |s| ==> s[|s| - |r| - 1] == '/'
  {
    if s == [] || s[|s| - 1] == '/' then []
    else
      var r := LastSegment(s[..|s| - 1]) + [s[|s| - 1]];
      assert s[|s| - |r|..] == s[..|s| - 1][|s| - |r|..] + [s[|s| - 1]];
      r
  }

  /** `id` is the digit run at `i` of `url`: no digit comes before it, it is not empty and cannot be extended. */
  predicate IsFirstDigitRun(url: string, i: nat, id: string) {
    && i + |id| <= |url|
    && url[i..i + |id|] == id
    && id != []
    && (forall k :: 0 <= k < |id| ==> IsDigit(id[k]))
    && (forall k :: 0 <= k < i ==> !IsDigit(url[k]))
    && (i + |id| < |url| ==> !IsDigit(url[i + |id|]))
  }

  /** The post id of a URL: its first run of digits, or else the text after its last slash. */
  function ExtractPostId(url: string): string {
    var i := FirstDigit(url);
    if i < |url| then url[i..DigitRunEnd(url, i)] else LastSegment(url)
  }

  /**
   * A URL with a digit gives its first maximal run of digits; a URL without
   * one gives the text after its last slash, which is empty when the URL
   * ends in a slash.
   */
  lemma {:induction false} PostIdShape(url: string)
    ensures HasDigit(url) ==> exists i :: IsFirstDigitRun(url, i, ExtractPostId(url))
    ensures !HasDigit(url) ==> '/' !in ExtractPostId(url) && EndsWith(url, ExtractPostId(url))
    ensures !HasDigit(url) && |ExtractPostId(url)| < |url| ==> url[|url| - |ExtractPostId(url)| - 1] == '/'
    ensures !HasDigit(url) && EndsWith(url, "/") ==> ExtractPostId(url) == ""
  {
    var i := FirstDigit(url);
    if i < |url| {
      assert IsFirstDigitRun(url, i, ExtractPostId(url));
    }
  }

  /** The first digit run of a URL is unique, so PostIdShape determines the id. */
  lemma {:induction false} FirstDigitRunUnique(url: string, i: nat, id: string, i': nat, id': string)
    requires IsFirstDigitRun(url, i, id) && IsFirstDigitRun(url, i', id')
    ensures i == i' && id == id'
  {
    assert forall k :: 0 <= k < |id| ==> url[i + k] == id[k];
    assert forall k :: 0 <= k < |id'| ==> url[i' + k] == id'[k];
    assert IsDigit(url[i]) && IsDigit(url[i']);
    assert i == i';
    assert |id| == |id'|;
  }

  // ---------------------------------------------------------------------
  // The index page
  // ---------------------------------------------------------------------

  /** The first `<a href>` inside an element: its href and its stripped text. */
  datatype Link = Link(href: string, text: string)
  /** One candidate element of the index page; `link` is None when it holds no `<a href>`. */
  datatype Article = Article(link: Option<Link>)
  /** The index page as its three candidate lists: `<article>`, `<div class="post">`, `<h2>`. */
  datatype IndexPage = IndexPage(articles: seq<Article>, postDivs: seq<Article>, headings: seq<Article>)
  datatype PostLink = PostLink(url: string, title: string)

  /** The first non-empty candidate list, else the headings. */
  function Candidates(page: IndexPage): (r: seq<Article>)
    ensures page.articles != [] ==> r == page.articles
    ensures page.articles == [] && page.postDivs != [] ==> r == page.postDivs
    ensures page.articles == [] && page.postDivs == [] ==> r == page.headings
  {
    if page.articles != [] then page.articles
    else if page.postDivs != [] then page.postDivs
    else page.headings
  }

  /** An href that does not start with "http" is resolved against the base URL. */
  function ResolveHref(href: string, join: (string, string) -> string): string {
    if StartsWith(href, "http") then href else join(BaseUrl, href)
  }

  function PostOf(link: Link, join: (string, string) -> string): PostLink {
    PostLink(ResolveHref(link.href, join), link.text)
  }

  /** Whether each article holds a link. */
  function Linked(articles: seq<Article>): (linked: seq<bool>)
    ensures |linked| == |articles|
    ensures forall k :: 0 <= k < |articles| ==> linked[k] == articles[k].link.Some?
  {
    seq(|articles|, k requires 0 <= k < |articles| => articles[k].link.Some?)
  }

  /** The post of each article that holds a link; an article without one gets an empty placeholder that Linked filters out. */
  function PostsAt(articles: seq<Article>, join: (string, string) -> string): (ps: seq<PostLink>)
    ensures |ps| == |articles|
    ensures forall k :: 0 <= k < |articles| && articles[k].link.Some? ==> ps[k] == PostOf(articles[k].link.value, join)
  {
    seq(|articles|, k requires 0 <= k < |articles| =>
      if articles[k].link.Some? then PostOf(articles[k].link.value, join) else PostLink("", ""))
  }

  /**
   * The posts of the articles that hold a link, in page order, one per
   * such article; articles without one are skipped.
   */
  function ListedPosts(articles: seq<Article>, join: (string, string) -> string): (r: seq<PostLink>)
    ensures r == Kept(PostsAt(articles, join), Linked(articles))
    ensures |r| == CountTrue(Linked(articles)) <= |articles|
    ensures forall p :: p in r ==>
      exists k :: 0 <= k < |articles| && articles[k].link.Some? && p == PostOf(articles[k].link.value, join)
    ensures forall k :: 0 <= k < |articles| && articles[k].link.Some? ==> PostOf(articles[k].link.value, join) in r
  {
    if articles == [] then []
    else
      var n := |articles| - 1;
      var init := articles[..n];
      var last := articles[n];
      var r := ListedPosts(init, join) + (if last.link.Some? then [PostOf(last.link.value, join)] else []);
      assert forall k :: 0 <= k < |init| ==> init[k] == articles[k];
      assert PostsAt(articles, join)[..n] == PostsAt(init, join);
      assert Linked(articles)[..n] == Linked(init);
      r
  }

  /** Python's `articles[:20]`: the first twenty candidates, or all of them when there are fewer. */
  function Newest(articles: seq<Article>): (r: seq<Article>)
    ensures |r| == if |articles| <= ListingLimit then |articles| else ListingLimit
    ensures r == articles[..|r|]
  {
    if |articles| <= ListingLimit then articles else articles[..ListingLimit]
  }

  /** The post list of an index page; a failed fetch (None) gives the empty list. */
  function PostList(index: Option<IndexPage>, join: (string, string) -> string): seq<PostLink> {
    if index.None? then [] else ListedPosts(Newest(Candidates(index.value)), join)
  }

  /**
   * At most twenty posts; a failed fetch gives none. Otherwise the posts
   * are those of the linked candidates among the first twenty, in page
   * order and one per linked candidate: every listed post comes from such
   * a candidate and every such candidate is listed.
   */
  lemma {:induction false} PostListShape(index: Option<IndexPage>, join: (string, string) -> string)
    ensures |PostList(index, join)| <= ListingLimit
    ensures index.None? ==> PostList(index, join) == []
    ensures index.Some? ==>
      var m := if |Candidates(index.value)| <= ListingLimit then |Candidates(index.value)| else ListingLimit;
      PostList(index, join) == Kept(PostsAt(Candidates(index.value), join)[..m], Linked(Candidates(index.value))[..m])
    ensures index.Some? ==> forall k :: (0 <= k < |Candidates(index.value)| && k < ListingLimit
      && Candidates(index.value)[k].link.Some?) ==> PostOf(Candidates(index.value)[k].link.value, join) in PostList(index, join)
    ensures index.Some? ==> forall p :: p in PostList(index, join) ==>
      exists k :: 0 <= k < |Candidates(index.value)| && k < ListingLimit
        && Candidates(index.value)[k].link.Some? && p == PostOf(Candidates(index.value)[k].link.value, join)
  {
    if index.Some? {
      var all := Candidates(index.value);
      var newest := Newest(all);
      assert forall k :: 0 <= k < |newest| ==> newest[k] == all[k];
      assert PostsAt(all, join)[..|newest|] == PostsAt(newest, join);
      assert Linked(all)[..|newest|] == Linked(newest);
    }
  }

  /** get_post_list: walks the first twenty candidates and lists those with a link. */
  method GetPostList(index: Option<IndexPage>, join: (string, string) -> string) returns (posts: seq<PostLink>)
    ensures posts == PostList(index, join)
    ensures |posts| <= ListingLimit
  {
    posts := [];
    if index.Some? {
      var articles := Newest(Candidates(index.value));
      for i := 0 to |articles|
        invariant posts == ListedPosts(articles[..i], join)
      {
        assert articles[..i + 1][..i] == articles[..i];
        var link := articles[i].link;
        if link.Some? {
          posts := posts + [PostOf(link.value, join)];
        }
      }
      assert articles[..|articles|] == articles;
    }
    PostListShape(index, join);
  }

  // ---------------------------------------------------------------------
  // One post
  // ---------------------------------------------------------------------

  /** The element kinds the scraper looks for on a post page. */
  datatype Locator =
    | H1 | H2
    | TimeTag | DateSpan | PostDateDiv
    | PostContentDiv | EntryContentDiv | ArticleContentDiv | ContentDiv | ArticleTag | MainTag
    | BodyTag

  /** A located element: its stripped text and its markup. */
  datatype Element = Element(text: string, markup: string)
  /** A parsed post page: the first element each locator selects, for the locators that select one. */
  datatype PostPage = PostPage(first: map<Locator, Element>)
  datatype PageOutcome = Fetched(page: PostPage) | FetchFailed

  const TitleLocators: seq<Locator> := [H1, H2]
  const DateLocators: seq<Locator> := [TimeTag, DateSpan, PostDateDiv]
  /** div.post-content, div.entry-content, div.article-content, div.content, article, main. */
  const ContentSelectors: seq<Locator> :=
    [PostContentDiv, EntryContentDiv, ArticleContentDiv, ContentDiv, ArticleTag, MainTag]

  /** Position of the first locator that selects an element, or `|locators|`. */
  function FirstFound(page: PostPage, locators: seq<Locator>): (k: nat)
    ensures k <= |locators|
    ensures forall j :: 0 <= j < k ==> locators[j] !in page.first
    ensures k < |locators| ==> locators[k] in page.first
  {
    if locators == [] || locators[0] in page.first then 0 else 1 + FirstFound(page, locators[1..])
  }

  /** First candidate wins. */
  function FirstMatch(page: PostPage, locators: seq<Locator>): Option<Element> {
    var k := FirstFound(page, locators);
    if k < |locators| then Some(page.first[locators[k]]) else None
  }

  /** The text of the first h1, else of the first h2, else the placeholder. */
  function PostTitle(page: PostPage): (title: string)
    ensures H1 in page.first ==> title == page.first[H1].text
    ensures H1 !in page.first && H2 in page.first ==> title == page.first[H2].text
    ensures H1 !in page.first && H2 !in page.first ==> title == Untitled
  {
    assert TitleLocators[0] == H1 && TitleLocators[1] == H2;
    match FirstMatch(page, TitleLocators)
    case Some(e) => e.text
    case None => Untitled
  }

  /** The text of the first time, span.date or div.post-date element, else today's date. */
  function PostDate(page: PostPage, today: string): (date: string)
    ensures TimeTag in page.first ==> date == page.first[TimeTag].text
    ensures TimeTag !in page.first && DateSpan in page.first ==> date == page.first[DateSpan].text
    ensures TimeTag !in page.first && DateSpan !in page.first && PostDateDiv in page.first ==>
      date == page.first[PostDateDiv].text
    ensures TimeTag !in page.first && DateSpan !in page.first && PostDateDiv !in page.first ==> date == today
  {
    assert DateLocators[0] == TimeTag && DateLocators[1] == DateSpan && DateLocators[2] == PostDateDiv;
    match FirstMatch(page, DateLocators)
    case Some(e) => e.text
    case None => today
  }

  /**
   * The markup of the content region: the first content selector that
   * matches wins; when that markup is empty or nothing matches, the body's
   * markup, or "" for a page without a body.
   */
  function SelectedMarkup(page: PostPage): (markup: string)
    ensures forall k :: (0 <= k < |ContentSelectors| && ContentSelectors[k] in page.first
      && (forall j :: 0 <= j < k ==> ContentSelectors[j] !in page.first)
      && page.first[ContentSelectors[k]].markup != "") ==> markup == page.first[ContentSelectors[k]].markup
    ensures (forall k :: 0 <= k < |ContentSelectors| ==> ContentSelectors[k] !in page.first) ==>
      markup == if BodyTag in page.first then page.first[BodyTag].markup else ""
  {
    var chosen := match FirstMatch(page, ContentSelectors) case Some(e) => e.markup case None => "";
    if chosen != "" then chosen
    else if BodyTag in page.first then page.first[BodyTag].markup
    else ""
  }

  /** The fields of a scraped document. */
  datatype ScrapedDoc = ScrapedDoc(title: string, url: string, date: string, scrapedAt: string, body: string)

  const SourceLabel: string := "**原文链接**: "
  const DateLabel: string := "**发布日期**: "
  const ScrapedAtLabel: string := "**爬取时间**: "

  /** The lines of the fixed header: "# title", a blank line, source, date and scrape time, a blank line, "---", a blank line. */
  function HeaderLines(d: ScrapedDoc): seq<string> {
    ["# " + d.title, "", SourceLabel + d.url, DateLabel + d.date, ScrapedAtLabel + d.scrapedAt, "", "---", ""]
  }

  /** The markdown file of a scraped post: the header lines, the body and a final line break. */
  function ScrapedMarkdown(d: ScrapedDoc): string {
    JoinLines(HeaderLines(d)) + d.body + "\n"
  }

  /** Reads the header fields back from their fixed lines. */
  function ParseScrapedMarkdown(s: string): Option<ScrapedDoc> {
    match TakeLines(s, 8)
    case None => None
    case Some((lines, rest)) =>
      var title := After(lines[0], "# ");
      var url := After(lines[2], SourceLabel);
      var date := After(lines[3], DateLabel);
      var scrapedAt := After(lines[4], ScrapedAtLabel);
      if title.Some? && lines[1] == "" && url.Some? && date.Some? && scrapedAt.Some?
        && lines[5] == "" && lines[6] == "---" && lines[7] == "" && EndsWith(rest, "\n")
      then Some(ScrapedDoc(title.value, url.value, date.value, scrapedAt.value, rest[..|rest| - 1]))
      else None
  }

  predicate SingleLineFields(d: ScrapedDoc) {
    '\n' !in d.title && '\n' !in d.url && '\n' !in d.date && '\n' !in d.scrapedAt
  }

  /** Title, URL, date and scrape time are recovered from their fixed lines, and the body after the header. */
  lemma {:induction false} ScrapedMarkdownRoundTrip(d: ScrapedDoc)
    requires SingleLineFields(d)
    ensures ParseScrapedMarkdown(ScrapedMarkdown(d)) == Some(d)
  {
    var lines := HeaderLines(d);
    assert NoLineBreaks(lines) by {
      assert '\n' !in "# " && '\n' !in SourceLabel && '\n' !in DateLabel && '\n' !in ScrapedAtLabel;
    }
    var rest := d.body + "\n";
    AppendAssoc(JoinLines(lines), d.body, "\n", JoinLines(lines) + d.body, ScrapedMarkdown(d));
    TakeLinesOf(lines, rest);
    assert TakeLines(ScrapedMarkdown(d), 8) == Some((lines, rest));
    AfterPrefix("# ", d.title);
    AfterPrefix(SourceLabel, d.url);
    AfterPrefix(DateLabel, d.date);
    AfterPrefix(ScrapedAtLabel, d.scrapedAt);
    assert EndsWith(rest, "\n") && rest[..|rest| - 1] == d.body;
  }

  /**
   * scrape_post: None when the page cannot be fetched; otherwise the title
   * and the markdown document built from the page's title, date and cleaned
   * content region.
   */
  function ScrapePost(url: string, outcome: PageOutcome, clean: string -> string, now: Moment): (r: Option<(string, string)>)
    ensures r.None? <==> outcome.FetchFailed?
    ensures r.Some? ==> r.value.0 == PostTitle(outcome.page) && r.value.1 != ""
  {
    match outcome
    case FetchFailed => None
    case Fetched(page) =>
      var d := ScrapedDoc(PostTitle(page), url, PostDate(page, now.date), now.dateTime, clean(SelectedMarkup(page)));
      Some((d.title, ScrapedMarkdown(d)))
  }

  /** The header of a scraped post gives back its title, URL, date and scrape time, and the body is the cleaned content. */
  lemma {:induction false} ScrapedPostReadsBack(url: string, page: PostPage, clean: string -> string, now: Moment)
    requires '\n' !in PostTitle(page) && '\n' !in url && '\n' !in PostDate(page, now.date) && '\n' !in now.dateTime
    ensures ParseScrapedMarkdown(ScrapePost(url, Fetched(page), clean, now).value.1)
      == Some(ScrapedDoc(PostTitle(page), url, PostDate(page, now.date), now.dateTime, clean(SelectedMarkup(page))))
  {
    ScrapedMarkdownRoundTrip(ScrapedDoc(PostTitle(page), url, PostDate(page, now.date), now.dateTime, clean(SelectedMarkup(page))));
  }

  /** run saves a scraped post when `title and content` are both non-empty. */
  predicate Saveable(scraped: Option<(string, string)>) {
    scraped.Some? && scraped.value.0 != "" && scraped.value.1 != ""
  }

  predicate Succeeds(url: string, outcome: PageOutcome, clean: string -> string, now: Moment) {
    Saveable(ScrapePost(url, outcome, clean, now))
  }

  /** The document is never empty, so a fetched page is saved exactly when its title text is not empty. */
  lemma {:induction false} SucceedsIffTitled(url: string, outcome: PageOutcome, clean: string -> string, now: Moment)
    ensures Succeeds(url, outcome, clean, now) <==> outcome.Fetched? && PostTitle(outcome.page) != ""
  {
  }

  // ---------------------------------------------------------------------
  // The ledger and the run
  // ---------------------------------------------------------------------

  datatype ScrapedEntry = ScrapedEntry(id: string, title: string, url: string, scrapedAt: string)

  /** The ledger file (None while it does not exist) and the posts directory, id to `{id}.md` content. */
  datatype ScrapeStore = ScrapeStore(ledger: Option<seq<ScrapedEntry>>, posts: map<string, string>)

  /** load_scraped_posts: the stored entries, or none when there is no ledger file. */
  function LoadScrapedPosts(store: ScrapeStore): (entries: seq<ScrapedEntry>)
    ensures store.ledger.None? ==> entries == []
    ensures store.ledger.Some? ==> entries == store.ledger.value
  {
    if store.ledger.Some? then store.ledger.value else []
  }

  function LedgerIds(entries: seq<ScrapedEntry>): (ids: seq<string>)
    ensures |ids| == |entries|
    ensures forall k :: 0 <= k < |entries| ==> ids[k] == entries[k].id
  {
    seq(|entries|, k requires 0 <= k < |entries| => entries[k].id)
  }

  /** is_already_scraped: some ledger entry has this id. */
  function IsAlreadyScraped(store: ScrapeStore, postId: string): (b: bool)
    ensures b <==> exists k :: 0 <= k < |LoadScrapedPosts(store)| && LoadScrapedPosts(store)[k].id == postId
  {
    postId in LedgerIds(LoadScrapedPosts(store))
  }

  /** save_scraped_post: reload the ledger, append one entry and write the whole ledger back. */
  function AppendEntry(store: ScrapeStore, entry: ScrapedEntry): (r: ScrapeStore)
    ensures LoadScrapedPosts(r) == LoadScrapedPosts(store) + [entry]
    ensures LedgerIds(LoadScrapedPosts(r)) == LedgerIds(LoadScrapedPosts(store)) + [entry.id]
    ensures r.posts == store.posts
  {
    ScrapeStore(Some(LoadScrapedPosts(store) + [entry]), store.posts)
  }

  /** What one listed post came to in a run. */
  datatype Outcome = Skipped | Failed | Saved

  /**
   * One iteration of run's loop over the post list, for a post whose id is
   * `postId`; `scraped` is what scrape_post returns for the post when it is called.
   */
  function ScrapeStep(store: ScrapeStore, postId: string, post: PostLink, scraped: Option<(string, string)>, now: Moment)
    : (ScrapeStore, Outcome)
  {
    if IsAlreadyScraped(store, postId) then
      (store, Skipped)
    else if Saveable(scraped) then
      var written := ScrapeStore(store.ledger, store.posts[postId := scraped.value.1]);
      (AppendEntry(written, ScrapedEntry(postId, scraped.value.0, post.url, now.iso)), Saved)
    else
      (store, Failed)
  }

  /**
   * One post: a recorded id is skipped; otherwise a success writes `{id}.md`
   * and appends exactly one entry, and a failure changes neither the ledger
   * nor the files.
   */
  lemma {:induction false} ScrapeStepEffect(store: ScrapeStore, postId: string, post: PostLink, scraped: Option<(string, string)>, now: Moment)
    ensures var r := ScrapeStep(store, postId, post, scraped, now);
      && (r.1 == Skipped <==> IsAlreadyScraped(store, postId))
      && (r.1 == Saved <==> !IsAlreadyScraped(store, postId) && Saveable(scraped))
      && (r.1 != Saved ==> r.0 == store)
      && (r.1 == Saved ==>
        && LoadScrapedPosts(r.0) == LoadScrapedPosts(store) + [ScrapedEntry(postId, scraped.value.0, post.url, now.iso)]
        && r.0.posts == store.posts[postId := scraped.value.1])
  {
  }

  /** A step that did not save leaves the store as it was; a failed step was for an id not yet recorded. */
  lemma {:induction false} UnsavedStepKeepsStore(store: ScrapeStore, postId: string, post: PostLink, scraped: Option<(string, string)>, now: Moment)
    ensures var r := ScrapeStep(store, postId, post, scraped, now);
      && (r.1 != Saved ==> r.0 == store)
      && (r.1 == Failed ==> postId !in LedgerIds(LoadScrapedPosts(store)))
  {
  }

  /** The ledger ids after one step: one id more exactly when the post was saved. */
  lemma {:induction false} StepLedgerIds(store: ScrapeStore, postId: string, post: PostLink, scraped: Option<(string, string)>, now: Moment)
    ensures var r := ScrapeStep(store, postId, post, scraped, now);
      && LoadScrapedPosts(store) <= LoadScrapedPosts(r.0)
      && |LoadScrapedPosts(r.0)| == |LoadScrapedPosts(store)| + (if r.1 == Saved then 1 else 0)
      && LedgerIds(LoadScrapedPosts(r.0))
        == LedgerIds(LoadScrapedPosts(store)) + (if r.1 == Saved then [postId] else [])
  {
    var r := ScrapeStep(store, postId, post, scraped, now);
    if r.1 != Saved {
      assert LedgerIds(LoadScrapedPosts(store)) + [] == LedgerIds(LoadScrapedPosts(store));
    }
  }

  /** The files after one step: `{id}.md` is written exactly when the post was saved, and no other file changes. */
  lemma {:induction false} StepFiles(store: ScrapeStore, postId: string, post: PostLink, scraped: Option<(string, string)>, now: Moment)
    ensures var r := ScrapeStep(store, postId, post, scraped, now);
      && (forall x :: x in r.0.posts <==> x in store.posts || (r.1 == Saved && x == postId))
      && (forall x :: x in store.posts && (r.1 != Saved || x != postId) ==> r.0.posts[x] == store.posts[x])
  {
  }

  /** The post id of every listed post, in listing order. */
  function PostIds(posts: seq<PostLink>): (ids: seq<string>)
    ensures |ids| == |posts|
  {
    if posts == [] then [] else PostIds(posts[..|posts| - 1]) + [ExtractPostId(posts[|posts| - 1].url)]
  }

  lemma {:induction false} PostIdsAt(posts: seq<PostLink>, k: nat)
    requires k < |posts|
    ensures PostIds(posts)[k] == ExtractPostId(posts[k].url)
  {
    var n := |posts| - 1;
    if k < n {
      PostIdsAt(posts[..n], k);
      assert posts[..n][k] == posts[k];
    }
  }

  /** run's loop body at listing position `k`; `attempts(k)` is what scrape_post returns there, `clock(k)` the time it runs at. */
  function StepAt(posts: seq<PostLink>, attempts: nat -> Option<(string, string)>, clock: nat -> Moment)
    : (ScrapeStore, nat) -> (ScrapeStore, Outcome)
  {
    (s: ScrapeStore, k: nat) => if k < |posts| then ScrapeStep(s, PostIds(posts)[k], posts[k], attempts(k), clock(k)) else (s, Skipped)
  }

  /** The store and the outcomes after run has handled the first `n` listed posts. */
  function ScrapeRun(posts: seq<PostLink>, attempts: nat -> Option<(string, string)>, clock: nat -> Moment,
                     store: ScrapeStore, n: nat): (r: (ScrapeStore, seq<Outcome>))
    requires n <= |posts|
    ensures |r.1| == n
  {
    Fold(StepAt(posts, attempts, clock), store, n)
  }

  /** One more listed post is one more step on the store the earlier ones left. */
  lemma {:induction false} RunUnfold(posts: seq<PostLink>, attempts: nat -> Option<(string, string)>, clock: nat -> Moment,
                  store: ScrapeStore, n: nat)
    requires 0 < n <= |posts|
    ensures var before := ScrapeRun(posts, attempts, clock, store, n - 1);
      var step := ScrapeStep(before.0, PostIds(posts)[n - 1], posts[n - 1], attempts(n - 1), clock(n - 1));
      ScrapeRun(posts, attempts, clock, store, n) == (step.0, before.1 + [step.1])
  {
    var before := ScrapeRun(posts, attempts, clock, store, n - 1);
    assert StepAt(posts, attempts, clock)(before.0, n - 1) == ScrapeStep(before.0, PostIds(posts)[n - 1], posts[n - 1], attempts(n - 1), clock(n - 1));
  }

  /** The outcome at position `k` is the step's outcome on the store the first `k` positions left. */
  lemma {:induction false} RunOutcomeAt(posts: seq<PostLink>, attempts: nat -> Option<(string, string)>, clock: nat -> Moment,
                     store: ScrapeStore, k: nat, n: nat)
    requires k < n <= |posts|
    ensures ScrapeRun(posts, attempts, clock, store, n).1[k]
      == ScrapeStep(ScrapeRun(posts, attempts, clock, store, k).0, PostIds(posts)[k], posts[k], attempts(k), clock(k)).1
  {
    FoldResultAt(StepAt(posts, attempts, clock), store, k, n);
    var before := ScrapeRun(posts, attempts, clock, store, k);
    assert StepAt(posts, attempts, clock)(before.0, k) == ScrapeStep(before.0, PostIds(posts)[k], posts[k], attempts(k), clock(k));
  }

  /** What scrape_post returns at each listed position: the page fetched for it, cleaned, scraped at `clock(k)`. */
  function Attempts(posts: seq<PostLink>, pages: nat -> PageOutcome, clean: string -> string, clock: nat -> Moment)
    : nat -> Option<(string, string)>
  {
    (k: nat) => if k < |posts| then ScrapePost(posts[k].url, pages(k), clean, clock(k)) else None
  }

  /** The number of saved positions. */
  function SavedCount(outs: seq<Outcome>): nat {
    if outs == [] then 0 else SavedCount(outs[..|outs| - 1]) + (if outs[|outs| - 1] == Saved then 1 else 0)
  }

  /** The ids of the saved positions among the first `|outs|` listed posts, in listing order. */
  function SavedIds(posts: seq<PostLink>, outs: seq<Outcome>): (ids: seq<string>)
    requires |outs| <= |posts|
    ensures |ids| == SavedCount(outs)
  {
    if outs == [] then []
    else
      var n := |outs| - 1;
      SavedIds(posts, outs[..n]) + (if outs[n] == Saved then [PostIds(posts)[n]] else [])
  }

  lemma {:induction false} SavedIdsStep(posts: seq<PostLink>, outs: seq<Outcome>, o: Outcome)
    requires |outs| < |posts|
    ensures SavedIds(posts, outs + [o])
      == SavedIds(posts, outs) + (if o == Saved then [PostIds(posts)[|outs|]] else [])
    ensures SavedCount(outs + [o]) == SavedCount(outs) + (if o == Saved then 1 else 0)
  {
    assert (outs + [o])[..|outs|] == outs;
  }

  /** An id that no listed position before `|outs|` has is not among the saved ids. */
  lemma {:induction false} SavedIdsAvoid(posts: seq<PostLink>, outs: seq<Outcome>, x: string)
    requires |outs| <= |posts|
    requires forall k :: 0 <= k < |outs| ==> PostIds(posts)[k] != x
    ensures x !in SavedIds(posts, outs)
  {
    if outs != [] {
      SavedIdsAvoid(posts, outs[..|outs| - 1], x);
    }
  }

  /** The ledger ids grow by exactly the ids of the saved positions, in listing order. */
  lemma {:induction false} RunAppendsSavedEntries(posts: seq<PostLink>, attempts: nat -> Option<(string, string)>,
                                                  clock: nat -> Moment, store: ScrapeStore, n: nat)
    requires n <= |posts|
    ensures var r := ScrapeRun(posts, attempts, clock, store, n);
      LedgerIds(LoadScrapedPosts(r.0)) == LedgerIds(LoadScrapedPosts(store)) + SavedIds(posts, r.1)
  {
    if n > 0 {
      RunAppendsSavedEntries(posts, attempts, clock, store, n - 1);
      var before := ScrapeRun(posts, attempts, clock, store, n - 1);
      var step := ScrapeStep(before.0, PostIds(posts)[n - 1], posts[n - 1], attempts(n - 1), clock(n - 1));
      RunUnfold(posts, attempts, clock, store, n);
      SavedIdsStep(posts, before.1, step.1);
      StepLedgerIds(before.0, PostIds(posts)[n - 1], posts[n - 1], attempts(n - 1), clock(n - 1));
      AppendAssoc(LedgerIds(LoadScrapedPosts(store)), SavedIds(posts, before.1),
                  if step.1 == Saved then [PostIds(posts)[n - 1]] else [],
                  LedgerIds(LoadScrapedPosts(before.0)), LedgerIds(LoadScrapedPosts(step.0)));
    }
  }

  /** A run never rewrites or drops a ledger entry: the ledger after `m` positions is a prefix of the ledger after `n`. */
  lemma {:induction false} RunKeepsOldEntries(posts: seq<PostLink>, attempts: nat -> Option<(string, string)>,
                                              clock: nat -> Moment, store: ScrapeStore, m: nat, n: nat)
    requires m <= n <= |posts|
    ensures LoadScrapedPosts(ScrapeRun(posts, attempts, clock, store, m).0)
      <= LoadScrapedPosts(ScrapeRun(posts, attempts, clock, store, n).0)
    decreases n
  {
    if m < n {
      RunKeepsOldEntries(posts, attempts, clock, store, m, n - 1);
      var before := ScrapeRun(posts, attempts, clock, store, n - 1);
      RunUnfold(posts, attempts, clock, store, n);
      StepLedgerIds(before.0, PostIds(posts)[n - 1], posts[n - 1], attempts(n - 1), clock(n - 1));
      PrefixTrans(LoadScrapedPosts(ScrapeRun(posts, attempts, clock, store, m).0), LoadScrapedPosts(before.0),
                  LoadScrapedPosts(ScrapeRun(posts, attempts, clock, store, n).0));
    }
  }

  /** The posts directory gains exactly the saved ids, and every other file is left as it was. */
  lemma {:induction false} RunWritesSavedFiles(posts: seq<PostLink>, attempts: nat -> Option<(string, string)>,
                                               clock: nat -> Moment, store: ScrapeStore, n: nat)
    requires n <= |posts|
    ensures var r := ScrapeRun(posts, attempts, clock, store, n);
      && (forall id :: id in r.0.posts <==> id in store.posts || id in SavedIds(posts, r.1))
      && (forall id :: id in store.posts && id !in SavedIds(posts, r.1) ==> r.0.posts[id] == store.posts[id])
  {
    if n > 0 {
      RunWritesSavedFiles(posts, attempts, clock, store, n - 1);
      var before := ScrapeRun(posts, attempts, clock, store, n - 1);
      var step := ScrapeStep(before.0, PostIds(posts)[n - 1], posts[n - 1], attempts(n - 1), clock(n - 1));
      RunUnfold(posts, attempts, clock, store, n);
      SavedIdsStep(posts, before.1, step.1);
      StepFiles(before.0, PostIds(posts)[n - 1], posts[n - 1], attempts(n - 1), clock(n - 1));
      FilesSnoc(store.posts, before.0.posts, step.0.posts, SavedIds(posts, before.1), PostIds(posts)[n - 1], step.1 == Saved);
    }
  }

  /**
   * The files after one more post: when the files before it are the old
   * ones plus those of `saved`, and the post adds or rewrites only its own
   * file, the files after it are the old ones plus those of `saved` and
   * that post, if it was saved.
   */
  lemma {:induction false} FilesSnoc(old0: map<string, string>, before: map<string, string>, after: map<string, string>,
                  saved: seq<string>, postId: string, wrote: bool)
    requires forall id :: id in before <==> id in old0 || id in saved
    requires forall id :: id in old0 && id !in saved ==> before[id] == old0[id]
    requires forall x :: x in after <==> x in before || (wrote && x == postId)
    requires forall x :: x in before && (!wrote || x != postId) ==> after[x] == before[x]
    ensures var more := saved + (if wrote then [postId] else []);
      && (forall id :: id in after <==> id in old0 || id in more)
      && (forall id :: id in old0 && id !in more ==> after[id] == old0[id])
  {
    var more := saved + (if wrote then [postId] else []);
    forall id | id in old0 && id !in more
      ensures after[id] == old0[id]
    {
      assert id !in saved;
      if wrote {
        assert id != postId;
      }
      assert id in before;
    }
  }

  /** The number of saved positions is the number of entries appended. */
  lemma {:induction false} RunCountIsAppended(posts: seq<PostLink>, attempts: nat -> Option<(string, string)>,
                           clock: nat -> Moment, store: ScrapeStore)
    ensures var r := ScrapeRun(posts, attempts, clock, store, |posts|);
      |LoadScrapedPosts(r.0)| == |LoadScrapedPosts(store)| + SavedCount(r.1)
  {
    RunAppendsSavedEntries(posts, attempts, clock, store, |posts|);
  }

  /** Because the ledger is re-read before every post, a ledger without duplicate ids stays so. */
  lemma {:induction false} RunKeepsIdsDistinct(posts: seq<PostLink>, attempts: nat -> Option<(string, string)>,
                                              clock: nat -> Moment, store: ScrapeStore, n: nat)
    requires n <= |posts|
    requires NoDup(LedgerIds(LoadScrapedPosts(store)))
    ensures NoDup(LedgerIds(LoadScrapedPosts(ScrapeRun(posts, attempts, clock, store, n).0)))
  {
    if n > 0 {
      RunKeepsIdsDistinct(posts, attempts, clock, store, n - 1);
      var before := ScrapeRun(posts, attempts, clock, store, n - 1);
      var step := ScrapeStep(before.0, PostIds(posts)[n - 1], posts[n - 1], attempts(n - 1), clock(n - 1));
      RunUnfold(posts, attempts, clock, store, n);
      StepLedgerIds(before.0, PostIds(posts)[n - 1], posts[n - 1], attempts(n - 1), clock(n - 1));
      if step.1 == Saved {
        NoDupAppend(LedgerIds(LoadScrapedPosts(before.0)), PostIds(posts)[n - 1]);
      }
    }
  }

  /** A step that did not fail leaves its post's id in the ledger. */
  lemma {:induction false} StepRecords(store: ScrapeStore, postId: string, post: PostLink, scraped: Option<(string, string)>, now: Moment)
    ensures var r := ScrapeStep(store, postId, post, scraped, now);
      r.1 != Failed ==> postId in LedgerIds(LoadScrapedPosts(r.0))
  {
    StepLedgerIds(store, postId, post, scraped, now);
  }

  /** An id in a ledger is in every ledger that extends it. */
  lemma {:induction false} LedgerIdsGrow(entries: seq<ScrapedEntry>, more: seq<ScrapedEntry>, id: string)
    requires entries <= more && id in LedgerIds(entries)
    ensures id in LedgerIds(more)
  {
    var k :| 0 <= k < |entries| && LedgerIds(entries)[k] == id;
    assert LedgerIds(more)[k] == id;
  }

  /** A listed position that did not fail has its id in the ledger right after its step. */
  lemma {:induction false} StepAtRecords(posts: seq<PostLink>, attempts: nat -> Option<(string, string)>,
                      clock: nat -> Moment, store: ScrapeStore, i: nat)
    requires i < |posts|
    requires ScrapeStep(ScrapeRun(posts, attempts, clock, store, i).0, PostIds(posts)[i], posts[i], attempts(i), clock(i)).1 != Failed
    ensures PostIds(posts)[i] in LedgerIds(LoadScrapedPosts(ScrapeRun(posts, attempts, clock, store, i + 1).0))
  {
    RunUnfold(posts, attempts, clock, store, i + 1);
    StepRecords(ScrapeRun(posts, attempts, clock, store, i).0, PostIds(posts)[i], posts[i], attempts(i), clock(i));
  }

  /** A listed position that did not fail has its id in the ledger at the end of the run. */
  lemma {:induction false} PositionRecorded(posts: seq<PostLink>, attempts: nat -> Option<(string, string)>,
                         clock: nat -> Moment, store: ScrapeStore, n: nat, i: nat)
    requires i < n <= |posts|
    requires ScrapeRun(posts, attempts, clock, store, n).1[i] != Failed
    ensures PostIds(posts)[i] in LedgerIds(LoadScrapedPosts(ScrapeRun(posts, attempts, clock, store, n).0))
  {
    RunOutcomeAt(posts, attempts, clock, store, i, n);
    StepAtRecords(posts, attempts, clock, store, i);
    RunKeepsOldEntries(posts, attempts, clock, store, i + 1, n);
    LedgerIdsGrow(LoadScrapedPosts(ScrapeRun(posts, attempts, clock, store, i + 1).0),
                  LoadScrapedPosts(ScrapeRun(posts, attempts, clock, store, n).0), PostIds(posts)[i]);
  }

  /** After a run every listed id is in the ledger, except those whose attempt failed. */
  lemma {:induction false} RunCoversListing(posts: seq<PostLink>, attempts: nat -> Option<(string, string)>,
                         clock: nat -> Moment, store: ScrapeStore, n: nat)
    requires n <= |posts|
    ensures var r := ScrapeRun(posts, attempts, clock, store, n);
      forall i :: 0 <= i < n && r.1[i] != Failed ==> PostIds(posts)[i] in LedgerIds(LoadScrapedPosts(r.0))
  {
    forall i | 0 <= i < n && ScrapeRun(posts, attempts, clock, store, n).1[i] != Failed
      ensures PostIds(posts)[i] in LedgerIds(LoadScrapedPosts(ScrapeRun(posts, attempts, clock, store, n).0))
    {
      PositionRecorded(posts, attempts, clock, store, n, i);
    }
  }

  /** A run over posts whose ids are all recorded changes nothing and skips every post. */
  lemma {:induction false} RunOverRecordedListing(posts: seq<PostLink>, attempts: nat -> Option<(string, string)>,
                                                 clock: nat -> Moment, store: ScrapeStore, n: nat)
    requires n <= |posts|
    requires forall i :: 0 <= i < n ==> PostIds(posts)[i] in LedgerIds(LoadScrapedPosts(store))
    ensures ScrapeRun(posts, attempts, clock, store, n) == (store, seq(n, _ => Skipped))
  {
    if n > 0 {
      RunOverRecordedListing(posts, attempts, clock, store, n - 1);
      RunUnfold(posts, attempts, clock, store, n);
      assert IsAlreadyScraped(store, PostIds(posts)[n - 1]);
      ScrapeStepEffect(store, PostIds(posts)[n - 1], posts[n - 1], attempts(n - 1), clock(n - 1));
      assert seq(n, _ => Skipped) == seq(n - 1, _ => Skipped) + [Skipped];
    } else {
      assert seq(n, _ => Skipped) == [];
    }
  }

  /**
   * Idempotence: when no post failed in a run, a second run over the same
   * listing, whatever the pages and the clock then return, saves nothing
   * and leaves the ledger and the files as they are.
   */
  lemma {:induction false} SecondRunSavesNothing(posts: seq<PostLink>, attempts: nat -> Option<(string, string)>, attempts': nat -> Option<(string, string)>,
                              clock: nat -> Moment, clock': nat -> Moment, store: ScrapeStore)
    requires forall i :: 0 <= i < |posts| ==> ScrapeRun(posts, attempts, clock, store, |posts|).1[i] != Failed
    ensures var first := ScrapeRun(posts, attempts, clock, store, |posts|).0;
      ScrapeRun(posts, attempts', clock', first, |posts|) == (first, seq(|posts|, _ => Skipped))
  {
    var first := ScrapeRun(posts, attempts, clock, store, |posts|).0;
    RunCoversListing(posts, attempts, clock, store, |posts|);
    RunOverRecordedListing(posts, attempts', clock', first, |posts|);
  }

  /** A step for a post with another id keeps an id out of the ledger. */
  lemma {:induction false} StepKeepsAbsent(store: ScrapeStore, postId: string, post: PostLink, scraped: Option<(string, string)>, now: Moment, id: string)
    requires id !in LedgerIds(LoadScrapedPosts(store))
    requires id != postId
    ensures id !in LedgerIds(LoadScrapedPosts(ScrapeStep(store, postId, post, scraped, now).0))
  {
    StepLedgerIds(store, postId, post, scraped, now);
  }

  /** A post whose id is not recorded is not skipped: scrape_post is called for it. */
  lemma {:induction false} StepTriesAbsent(store: ScrapeStore, postId: string, post: PostLink, scraped: Option<(string, string)>, now: Moment)
    requires postId !in LedgerIds(LoadScrapedPosts(store))
    ensures ScrapeStep(store, postId, post, scraped, now).1 != Skipped
  {
  }

  /** An id that no listed position from `m` up to `n` has stays out of the ledger over those positions. */
  lemma {:induction false} RunKeepsAbsent(posts: seq<PostLink>, attempts: nat -> Option<(string, string)>,
                                          clock: nat -> Moment, store: ScrapeStore, m: nat, n: nat, id: string)
    requires m <= n <= |posts|
    requires id !in LedgerIds(LoadScrapedPosts(ScrapeRun(posts, attempts, clock, store, m).0))
    requires forall j :: m <= j < n ==> PostIds(posts)[j] != id
    ensures id !in LedgerIds(LoadScrapedPosts(ScrapeRun(posts, attempts, clock, store, n).0))
    decreases n
  {
    if m < n {
      RunKeepsAbsent(posts, attempts, clock, store, m, n - 1, id);
      var before := ScrapeRun(posts, attempts, clock, store, n - 1);
      RunUnfold(posts, attempts, clock, store, n);
      StepKeepsAbsent(before.0, PostIds(posts)[n - 1], posts[n - 1], attempts(n - 1), clock(n - 1), id);
    }
  }

  /** The step at position `i` failed: its id is not in the ledger after it. */
  lemma {:induction false} StepAtFailed(posts: seq<PostLink>, attempts: nat -> Option<(string, string)>,
                     clock: nat -> Moment, store: ScrapeStore, i: nat)
    requires i < |posts|
    requires ScrapeStep(ScrapeRun(posts, attempts, clock, store, i).0, PostIds(posts)[i], posts[i], attempts(i), clock(i)).1 == Failed
    ensures PostIds(posts)[i] !in LedgerIds(LoadScrapedPosts(ScrapeRun(posts, attempts, clock, store, i + 1).0))
  {
    RunUnfold(posts, attempts, clock, store, i + 1);
    UnsavedStepKeepsStore(ScrapeRun(posts, attempts, clock, store, i).0, PostIds(posts)[i], posts[i], attempts(i), clock(i));
  }

  /** A failed post is not recorded, unless a later listing position with the same id was saved. */
  lemma {:induction false} FailedPostNotRecorded(posts: seq<PostLink>, attempts: nat -> Option<(string, string)>,
                              clock: nat -> Moment, store: ScrapeStore, n: nat, i: nat)
    requires i < n <= |posts|
    requires ScrapeRun(posts, attempts, clock, store, n).1[i] == Failed
    requires forall j :: i < j < n ==> PostIds(posts)[j] != PostIds(posts)[i]
    ensures PostIds(posts)[i] !in LedgerIds(LoadScrapedPosts(ScrapeRun(posts, attempts, clock, store, n).0))
  {
    RunOutcomeAt(posts, attempts, clock, store, i, n);
    StepAtFailed(posts, attempts, clock, store, i);
    RunKeepsAbsent(posts, attempts, clock, store, i + 1, n, PostIds(posts)[i]);
  }

  /**
   * A failure is retried on the next run: when an id is missing from the
   * ledger, the next run attempts (fetches) the first listed post with that id.
   */
  lemma {:induction false} FailedPostIsRetried(posts: seq<PostLink>, attempts: nat -> Option<(string, string)>,
                            clock: nat -> Moment, store: ScrapeStore, j: nat)
    requires j < |posts|
    requires PostIds(posts)[j] !in LedgerIds(LoadScrapedPosts(store))
    requires forall i :: 0 <= i < j ==> PostIds(posts)[i] != PostIds(posts)[j]
    ensures ScrapeRun(posts, attempts, clock, store, j + 1).1[j] != Skipped
  {
    var before := ScrapeRun(posts, attempts, clock, store, j);
    var id := PostIds(posts)[j];
    RunAppendsSavedEntries(posts, attempts, clock, store, j);
    SavedIdsAvoid(posts, before.1, id);
    assert id !in LedgerIds(LoadScrapedPosts(before.0));
    RunOutcomeAt(posts, attempts, clock, store, j, j + 1);
    StepTriesAbsent(before.0, id, posts[j], attempts(j), clock(j));
  }

  /** One pass of run's loop body over the store the earlier positions left extends the run by one position. */
  lemma {:induction false} RunAfterOne(posts: seq<PostLink>, pages: nat -> PageOutcome, clean: string -> string,
                                       clock: nat -> Moment, store: ScrapeStore, i: nat,
                                       before: ScrapeStore, outs: seq<Outcome>, after: ScrapeStore, o: Outcome)
    requires i < |posts|
    requires (before, outs) == ScrapeRun(posts, Attempts(posts, pages, clean, clock), clock, store, i)
    requires (after, o) == ScrapeStep(before, ExtractPostId(posts[i].url), posts[i],
                                      ScrapePost(posts[i].url, pages(i), clean, clock(i)), clock(i))
    ensures (after, outs + [o]) == ScrapeRun(posts, Attempts(posts, pages, clean, clock), clock, store, i + 1)
    ensures SavedCount(outs + [o]) == SavedCount(outs) + (if o == Saved then 1 else 0)
  {
    assert Attempts(posts, pages, clean, clock)(i) == ScrapePost(posts[i].url, pages(i), clean, clock(i));
    RunUnfold(posts, Attempts(posts, pages, clean, clock), clock, store, i + 1);
    PostIdsAt(posts, i);
    assert (outs + [o])[..i] == outs;
  }

  // ---------------------------------------------------------------------
  // The scraper object
  // ---------------------------------------------------------------------

  /** KexueScraper, with the files it owns as fields. */
  class KexueScraper {
    /** scraped_posts.json; None while it does not exist. */
    var metadataFile: Option<seq<ScrapedEntry>>
    /** kexue_fm_zh_cn: post id to the content of `{id}.md`. */
    var postsDir: map<string, string>

    constructor (ledger: Option<seq<ScrapedEntry>>, posts: map<string, string>)
      ensures Store() == ScrapeStore(ledger, posts)
    {
      metadataFile := ledger;
      postsDir := posts;
    }

    function Store(): ScrapeStore
      reads this
    {
      ScrapeStore(metadataFile, postsDir)
    }

    /** save_scraped_post: load, append one entry, dump the whole ledger. */
    method SaveScrapedPost(postId: string, title: string, url: string, now: Moment)
      modifies this
      ensures Store() == AppendEntry(old(Store()), ScrapedEntry(postId, title, url, now.iso))
    {
      var scraped := LoadScrapedPosts(Store());
      scraped := scraped + [ScrapedEntry(postId, title, url, now.iso)];
      metadataFile := Some(scraped);
    }

    /** One pass of run's loop body: skip a recorded id, else scrape, save `{id}.md` and record it on success. */
    method ScrapeOne(post: PostLink, outcome: PageOutcome, clean: string -> string, now: Moment) returns (o: Outcome)
      modifies this
      ensures (Store(), o) == ScrapeStep(old(Store()), ExtractPostId(post.url), post, ScrapePost(post.url, outcome, clean, now), now)
    {
      var postId := ExtractPostId(post.url);
      if IsAlreadyScraped(Store(), postId) {
        return Skipped;
      }
      var scraped := ScrapePost(post.url, outcome, clean, now);
      if scraped.Some? && scraped.value.0 != "" && scraped.value.1 != "" {
        postsDir := postsDir[postId := scraped.value.1];
        SaveScrapedPost(postId, scraped.value.0, post.url, now);
        o := Saved;
      } else {
        o := Failed;
      }
    }

    /**
     * run: list the posts, skip the recorded ids, scrape the others, save
     * `{id}.md` and a ledger entry for each success; returns the number of
     * posts saved.
     */
    method Run(index: Option<IndexPage>, join: (string, string) -> string, pages: nat -> PageOutcome,
               clean: string -> string, clock: nat -> Moment) returns (count: nat)
      modifies this
      ensures var posts := PostList(index, join);
        var r := ScrapeRun(posts, Attempts(posts, pages, clean, clock), clock, old(Store()), |posts|);
        Store() == r.0 && count == SavedCount(r.1)
      ensures |LoadScrapedPosts(Store())| == |LoadScrapedPosts(old(Store()))| + count
    {
      var posts := GetPostList(index, join);
      count := 0;
      ghost var outs: seq<Outcome> := [];
      for i := 0 to |posts|
        invariant (Store(), outs) == ScrapeRun(posts, Attempts(posts, pages, clean, clock), clock, old(Store()), i)
        invariant count == SavedCount(outs)
      {
        ghost var before := Store();
        var o := ScrapeOne(posts[i], pages(i), clean, clock(i));
        RunAfterOne(posts, pages, clean, clock, old(Store()), i, before, outs, Store(), o);
        if o == Saved {
          count := count + 1;
        }
        outs := outs + [o];
      }
      RunCountIsAppended(posts, Attempts(posts, pages, clean, clock), clock, old(Store()));
    }
  }
}
