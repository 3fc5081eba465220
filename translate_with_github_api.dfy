/**
 * The GitHub API translator: every source post without an entry in the
 * ledger `translated_posts_github.json` is sent to the chat completion
 * endpoint; when no translation comes back, the original text is wrapped
 * in a fixed banner and footer instead. Either way the target file gets
 * the translation header, and the post is recorded, so every listed post
 * whose source file exists counts as translated.
 *
 * The reply of each request is a parameter (`replies(k)` for the k-th
 * listed post), and so is the clock.
 */
module GitHubTranslate {
  import opened Wrappers
  import opened Text
  import opened Pipeline
  import opened Translation

  /** The service line of the header this translator writes. */
  const ServiceLine: string := "**Translation Method**: GitHub API"

  /**
   * What the chat completion request came to: a response with its status
   * code and the content of the first choice's message (None when the
   * body has no such field), or an exception (timeout, connection error).
   */
  datatype ApiOutcome = Response(status: int, firstChoice: Option<string>) | Raised

  /** translate_with_github_api: the first choice's content of a 200 response, otherwise nothing. */
  function TranslateWithGithubApi(reply: ApiOutcome): (translated: Option<string>)
    ensures translated.Some? <==> reply.Response? && reply.status == 200 && reply.firstChoice.Some?
    ensures translated.Some? ==> translated.value == reply.firstChoice.value
  {
    match reply
    case Raised => None
    case Response(status, firstChoice) => if status == 200 then firstChoice else None
  }

  const Banner: string :=
    "# [TRANSLATED FROM CHINESE]\n\n**Note**: This is an auto-translated version. The original Chinese text is preserved below.\n\n---\n\n"
  const Footer: string := "\n\n---\n\n**Original Chinese text above - Professional translation needed**"

  /** simple_translate: the original text, verbatim, between the banner and the footer. */
  function SimpleTranslate(text: string): (wrapped: string)
    ensures StartsWith(wrapped, Banner) && EndsWith(wrapped, Footer)
    ensures |wrapped| == |Banner| + |text| + |Footer|
    ensures wrapped[|Banner|..|wrapped| - |Footer|] == text
  {
    var wrapped := Banner + text + Footer;
    assert wrapped[..|Banner|] == Banner;
    assert wrapped[|wrapped| - |Footer|..] == Footer;
    assert wrapped[|Banner|..|wrapped| - |Footer|] == text;
    wrapped
  }

  /** The text translate_post writes after the header: the API's translation, or the wrapped original when there is none or it is empty. */
  function TranslatedContent(original: string, reply: ApiOutcome): string {
    var translated := TranslateWithGithubApi(reply);
    if translated.None? || translated.value == "" then SimpleTranslate(original) else translated.value
  }

  /** A non-empty first choice of a 200 response is used as it is; anything else falls back to the wrapped original, so the text is never empty. */
  lemma {:induction false} ContentFallback(original: string, reply: ApiOutcome)
    ensures var content := TranslatedContent(original, reply);
      && content != ""
      && (reply.Response? && reply.status == 200 && reply.firstChoice.Some? && reply.firstChoice.value != ""
          ==> content == reply.firstChoice.value)
      && (reply.Raised? || reply.status != 200 || reply.firstChoice.None? || reply.firstChoice.value == ""
          ==> content == SimpleTranslate(original))
  {
  }

  /** translate_post: nothing when the source file is missing; otherwise the target file and one ledger entry. */
  function TranslateStep(store: TranslateStore, postId: string, reply: ApiOutcome, now: Moment): (TranslateStore, bool) {
    if !HasSource(store, postId) then
      (store, false)
    else
      var content := TranslatedContent(store.source.value[postId], reply);
      var doc := TranslatedDoc(postId, now.dateTime, ServiceLine, content);
      var written := TranslateStore(store.source, store.target[postId := doc], store.ledger);
      (AppendEntry(written, postId, now), true)
  }

  /**
   * One post: False and no change at all when its source file is missing;
   * otherwise True, the target file is the header followed by the
   * translated text, and exactly one entry is appended to the ledger.
   */
  lemma {:induction false} TranslateStepEffect(store: TranslateStore, postId: string, reply: ApiOutcome, now: Moment)
    ensures var r := TranslateStep(store, postId, reply, now);
      && (r.1 <==> HasSource(store, postId))
      && (!r.1 ==> r.0 == store)
      && r.0.source == store.source
      && (r.1 ==>
        && LoadTranslatedPosts(r.0) == LoadTranslatedPosts(store) + [TranslatedEntry(postId, now.iso)]
        && StoredIds(r.0) == StoredIds(store) + [postId]
        && r.0.target == store.target[postId := TranslatedDoc(postId, now.dateTime, ServiceLine,
                                                              TranslatedContent(store.source.value[postId], reply))])
  {
  }

  /** The header of a translated post gives back the post id, the date and "GitHub API", followed by the translated text. */
  lemma {:induction false} TranslatedPostReadsBack(store: TranslateStore, postId: string, reply: ApiOutcome, now: Moment)
    requires HasSource(store, postId)
    requires '\n' !in postId && '\n' !in now.dateTime
    ensures var r := TranslateStep(store, postId, reply, now).0;
      ParseTranslatedDoc(r.target[postId])
        == Some((postId, now.dateTime, ServiceLine, TranslatedContent(store.source.value[postId], reply)))
  {
    TranslatedDocRoundTrip(postId, now.dateTime, ServiceLine, TranslatedContent(store.source.value[postId], reply));
  }

  /** The store and the results after translate_all has handled the first `n` listed ids. */
  function TranslateRun(ids: seq<string>, replies: nat -> ApiOutcome, clock: nat -> Moment, store: TranslateStore, n: nat)
    : (r: (TranslateStore, seq<bool>))
    requires n <= |ids|
    ensures |r.1| == n
  {
    Fold(StepAt(ids, replies, clock), store, n)
  }

  /** The step translate_all takes at listing position `k`. */
  function StepAt(ids: seq<string>, replies: nat -> ApiOutcome, clock: nat -> Moment): (TranslateStore, nat) -> (TranslateStore, bool) {
    (s: TranslateStore, k: nat) => if k < |ids| then TranslateStep(s, ids[k], replies(k), clock(k)) else (s, false)
  }

  /** A run over `n` ids is the run over the first `n - 1` followed by the step at position `n - 1`. */
  lemma {:induction false} TranslateRunUnfold(ids: seq<string>, replies: nat -> ApiOutcome, clock: nat -> Moment, store: TranslateStore, n: nat)
    requires 0 < n <= |ids|
    ensures var before := TranslateRun(ids, replies, clock, store, n - 1);
      var step := TranslateStep(before.0, ids[n - 1], replies(n - 1), clock(n - 1));
      TranslateRun(ids, replies, clock, store, n) == (step.0, before.1 + [step.1])
  {
    var before := TranslateRun(ids, replies, clock, store, n - 1);
    assert StepAt(ids, replies, clock)(before.0, n - 1) == TranslateStep(before.0, ids[n - 1], replies(n - 1), clock(n - 1));
  }

  /** What one step does to the ledger ids and the target directory, without the file contents. */
  lemma {:induction false} TranslateStepSummary(store: TranslateStore, postId: string, reply: ApiOutcome, now: Moment)
    ensures var r := TranslateStep(store, postId, reply, now);
      && r.0.source == store.source
      && (r.1 <==> HasSource(store, postId))
      && StoredIds(r.0) == StoredIds(store) + (if r.1 then [postId] else [])
      && |LoadTranslatedPosts(r.0)| == |LoadTranslatedPosts(store)| + (if r.1 then 1 else 0)
      && (forall x :: x in r.0.target <==> x in store.target || (r.1 && x == postId))
      && (forall x :: x in store.target && x != postId ==> r.0.target[x] == store.target[x])
  {
    var r := TranslateStep(store, postId, reply, now);
    if !r.1 {
      assert StoredIds(store) + [] == StoredIds(store);
    }
  }

  /** A step keeps the source directory, and succeeds exactly when the source file exists. */
  lemma {:induction false} TranslateStepOutcome(store: TranslateStore, postId: string, reply: ApiOutcome, now: Moment)
    ensures var r := TranslateStep(store, postId, reply, now);
      r.0.source == store.source && (r.1 <==> HasSource(store, postId))
  {
  }

  /** A run never changes the source directory. */
  lemma {:induction false} TranslateRunKeepsSource(ids: seq<string>, replies: nat -> ApiOutcome, clock: nat -> Moment,
                                                   store: TranslateStore, n: nat)
    requires n <= |ids|
    ensures TranslateRun(ids, replies, clock, store, n).0.source == store.source
  {
    if n > 0 {
      TranslateRunKeepsSource(ids, replies, clock, store, n - 1);
      TranslateRunUnfold(ids, replies, clock, store, n);
      var before := TranslateRun(ids, replies, clock, store, n - 1);
      TranslateStepOutcome(before.0, ids[n - 1], replies(n - 1), clock(n - 1));
    }
  }

  /** A run appends exactly the ids it translated to the ledger, in listing order. */
  lemma {:induction false} TranslateRunLedger(ids: seq<string>, replies: nat -> ApiOutcome, clock: nat -> Moment,
                                              store: TranslateStore, n: nat)
    requires n <= |ids|
    ensures var r := TranslateRun(ids, replies, clock, store, n);
      StoredIds(r.0) == StoredIds(store) + Succeeded(ids, r.1)
  {
    if n > 0 {
      TranslateRunLedger(ids, replies, clock, store, n - 1);
      var before := TranslateRun(ids, replies, clock, store, n - 1);
      var step := TranslateStep(before.0, ids[n - 1], replies(n - 1), clock(n - 1));
      TranslateRunUnfold(ids, replies, clock, store, n);
      TranslateStepSummary(before.0, ids[n - 1], replies(n - 1), clock(n - 1));
      SucceededStep(ids, before.1, step.1);
      assert (before.1 + [step.1])[..n - 1] == before.1;
      AppendAssoc(StoredIds(store), Succeeded(ids, before.1), if step.1 then [ids[n - 1]] else [],
                  StoredIds(before.0), StoredIds(step.0));
    }
  }

  /** In a run each listed id is translated exactly when its source file exists. */
  lemma {:induction false} TranslateRunOutcomes(ids: seq<string>, replies: nat -> ApiOutcome, clock: nat -> Moment,
                                                store: TranslateStore, n: nat)
    requires n <= |ids|
    ensures var r := TranslateRun(ids, replies, clock, store, n);
      forall k :: 0 <= k < n ==> (r.1[k] <==> HasSource(store, ids[k]))
  {
    if n > 0 {
      TranslateRunOutcomes(ids, replies, clock, store, n - 1);
      TranslateRunKeepsSource(ids, replies, clock, store, n - 1);
      var before := TranslateRun(ids, replies, clock, store, n - 1);
      var step := TranslateStep(before.0, ids[n - 1], replies(n - 1), clock(n - 1));
      var outs := before.1 + [step.1];
      TranslateRunUnfold(ids, replies, clock, store, n);
      TranslateStepOutcome(before.0, ids[n - 1], replies(n - 1), clock(n - 1));
      forall k | 0 <= k < n
        ensures outs[k] <==> HasSource(store, ids[k])
      {
        if k < n - 1 {
          assert outs[k] == before.1[k];
        }
      }
    }
  }

  /** A run writes exactly the target files of the translated ids and leaves every other target file as it was. */
  lemma {:induction false} TranslateRunFiles(ids: seq<string>, replies: nat -> ApiOutcome, clock: nat -> Moment,
                                             store: TranslateStore, n: nat)
    requires n <= |ids|
    ensures var r := TranslateRun(ids, replies, clock, store, n);
      && (forall x :: x in r.0.target <==> x in store.target || x in Succeeded(ids, r.1))
      && (forall x :: x in store.target && x !in ids[..n] ==> r.0.target[x] == store.target[x])
  {
    if n > 0 {
      TranslateRunFiles(ids, replies, clock, store, n - 1);
      var before := TranslateRun(ids, replies, clock, store, n - 1);
      var step := TranslateStep(before.0, ids[n - 1], replies(n - 1), clock(n - 1));
      TranslateRunUnfold(ids, replies, clock, store, n);
      TranslateStepSummary(before.0, ids[n - 1], replies(n - 1), clock(n - 1));
      SucceededStep(ids, before.1, step.1);
      assert ids[..n] == ids[..n - 1] + [ids[n - 1]];
      TargetSnoc(store.target, before.0.target, step.0.target, Succeeded(ids, before.1), ids[..n - 1], ids[n - 1], step.1);
    }
  }

  /**
   * The target files after one more id: when the files before it are the
   * old ones plus those of `written`, untouched outside `tried`, and the
   * step writes at most the file of `postId`, then the files after it are
   * the old ones plus those of `written` and `postId` if it succeeded,
   * untouched outside `tried` and `postId`.
   */
  lemma {:induction false} TargetSnoc(old0: map<string, string>, before: map<string, string>, after: map<string, string>,
                                      written: seq<string>, tried: seq<string>, postId: string, ok: bool)
    requires forall x :: x in before <==> x in old0 || x in written
    requires forall x :: x in old0 && x !in tried ==> before[x] == old0[x]
    requires forall x :: x in after <==> x in before || (ok && x == postId)
    requires forall x :: x in before && x != postId ==> after[x] == before[x]
    ensures forall x :: x in after <==> x in old0 || x in written + (if ok then [postId] else [])
    ensures forall x :: x in old0 && x !in tried + [postId] ==> after[x] == old0[x]
  {
    forall x | x in old0 && x !in tried + [postId]
      ensures after[x] == old0[x]
    {
      assert x !in tried && x != postId;
    }
  }

  /**
   * The source file translate_post cannot find: the file `.md` of an empty
   * id is listed under the stem ".md", and `.md.md` does not exist.
   */
  function Stuck(store: TranslateStore): set<string> {
    if "" in SourceIds(store) && !HasSource(store, ".md") then {""} else {}
  }

  /**
   * translate_all over a listing of the pending files: a listed file is
   * translated exactly when it is not the stuck one, so the count is the
   * number of pending files other than it, and afterwards only it can
   * still be pending. Without a file `.md` every pending post is
   * translated, the ledger gains exactly the listed ids and nothing is
   * pending; a ledger without duplicate ids stays so when no two source
   * files share a stem.
   */
  lemma {:induction false} TranslateAllCoversPending(files: seq<string>, replies: nat -> ApiOutcome, clock: nat -> Moment, store: TranslateStore)
    requires IsUntranslatedListing(store, files)
    ensures var r := TranslateRun(Stems(files), replies, clock, store, |files|);
      && (forall k :: 0 <= k < |files| ==> (r.1[k] <==> files[k] !in Stuck(store)))
      && CountTrue(r.1) == |Pending(store) - Stuck(store)|
      && Pending(r.0) == Pending(store) * Stuck(store)
      && ("" !in SourceIds(store) ==> StoredIds(r.0) == StoredIds(store) + files && Pending(r.0) == {})
      && (StemsDistinct(store) && NoDup(StoredIds(store)) ==> NoDup(StoredIds(r.0)))
  {
    var r := TranslateRun(Stems(files), replies, clock, store, |files|);
    ListedOutcomes(files, replies, clock, store);
    CountSucceeded(store, files, r.1);
    PendingAfterTranslateAll(files, replies, clock, store);
    if "" !in SourceIds(store) {
      AllListedRecorded(files, replies, clock, store);
    }
  }

  /** Each listed file is translated exactly when it is not the stuck one. */
  lemma {:induction false} ListedOutcomes(files: seq<string>, replies: nat -> ApiOutcome, clock: nat -> Moment, store: TranslateStore)
    requires IsUntranslatedListing(store, files)
    ensures var r := TranslateRun(Stems(files), replies, clock, store, |files|);
      forall k :: 0 <= k < |files| ==> (r.1[k] <==> files[k] !in Stuck(store))
  {
    var r := TranslateRun(Stems(files), replies, clock, store, |files|);
    TranslateRunOutcomes(Stems(files), replies, clock, store, |files|);
    forall k | 0 <= k < |files|
      ensures r.1[k] <==> files[k] !in Stuck(store)
    {
      assert files[k] in Pending(store);
    }
  }

  /** After translate_all only the stuck file can still be pending, and distinct ledger ids stay distinct when stems are distinct. */
  lemma {:induction false} PendingAfterTranslateAll(files: seq<string>, replies: nat -> ApiOutcome, clock: nat -> Moment, store: TranslateStore)
    requires IsUntranslatedListing(store, files)
    ensures var r := TranslateRun(Stems(files), replies, clock, store, |files|);
      && Pending(r.0) == Pending(store) * Stuck(store)
      && (StemsDistinct(store) && NoDup(StoredIds(store)) ==> NoDup(StoredIds(r.0)))
  {
    var r := TranslateRun(Stems(files), replies, clock, store, |files|);
    TranslateRunKeepsSource(Stems(files), replies, clock, store, |files|);
    TranslateRunLedger(Stems(files), replies, clock, store, |files|);
    ListedOutcomes(files, replies, clock, store);
    PendingAfterRun(store, r.0, files, r.1);
    forall x | x in Pending(r.0)
      ensures x in Pending(store) * Stuck(store)
    {
      var i :| 0 <= i < |files| && files[i] == x;
      assert files[i] in Pending(store);
    }
    forall x | x in Pending(store) * Stuck(store)
      ensures x in Pending(r.0)
    {
      var i :| 0 <= i < |files| && files[i] == x;
    }
  }

  /** Without a file `.md` every listed post is translated, so the ledger gains exactly the listed ids. */
  lemma {:induction false} AllListedRecorded(files: seq<string>, replies: nat -> ApiOutcome, clock: nat -> Moment, store: TranslateStore)
    requires IsUntranslatedListing(store, files) && "" !in SourceIds(store)
    ensures var r := TranslateRun(Stems(files), replies, clock, store, |files|);
      StoredIds(r.0) == StoredIds(store) + files
  {
    var ids := Stems(files);
    var r := TranslateRun(ids, replies, clock, store, |files|);
    TranslateRunLedger(ids, replies, clock, store, |files|);
    ListedOutcomes(files, replies, clock, store);
    assert ids == files by {
      forall k | 0 <= k < |files|
        ensures ids[k] == files[k]
      {
        assert files[k] in Pending(store);
      }
    }
    KeptAll(ids, r.1);
    assert ids[..|files|] == ids;
  }

  /** When exactly the files outside `stuck` succeed, their number is that of the pending files outside it. */
  lemma {:induction false} CountSucceeded(store: TranslateStore, files: seq<string>, oks: seq<bool>)
    requires IsUntranslatedListing(store, files) && |oks| == |files|
    requires forall k :: 0 <= k < |files| ==> (oks[k] <==> files[k] !in Stuck(store))
    ensures CountTrue(oks) == |Pending(store) - Stuck(store)|
  {
    var kept := Kept(files, oks);
    KeptNoDup(files, oks);
    NoDupCardinality(kept);
    forall x | x in kept
      ensures x in Pending(store) - Stuck(store)
    {
      KeptFrom(files, oks, x);
    }
    forall x | x in Pending(store) - Stuck(store)
      ensures x in kept
    {
      var k :| 0 <= k < |files| && files[k] == x;
      KeptHas(files, oks, k);
    }
    assert (set x | x in kept) == Pending(store) - Stuck(store);
  }

  /**
   * A second translate_all: its listing is empty, except that a pending
   * stuck file is listed again on every run, since it is never recorded.
   */
  lemma {:induction false} SecondRunFindsNothing(files: seq<string>, replies: nat -> ApiOutcome, clock: nat -> Moment, store: TranslateStore,
                              next: seq<string>)
    requires IsUntranslatedListing(store, files)
    requires IsUntranslatedListing(TranslateRun(Stems(files), replies, clock, store, |files|).0, next)
    ensures next == if "" in Pending(store) * Stuck(store) then [""] else []
  {
    var after := TranslateRun(Stems(files), replies, clock, store, |files|).0;
    TranslateAllCoversPending(files, replies, clock, store);
    if "" in Pending(store) * Stuck(store) {
      assert Pending(after) == {""};
      ListingSize(after, next);
      assert next[0] in Pending(after);
      assert next == [next[0]];
    } else {
      assert Pending(after) == {};
      NothingPendingListsNothing(after, next);
    }
  }

  /** One pass of translate_all's loop body over the store the earlier ids left extends the run by one id. */
  lemma {:induction false} TranslateAfterOne(ids: seq<string>, replies: nat -> ApiOutcome, clock: nat -> Moment, store: TranslateStore,
                                            i: nat, before: TranslateStore, oks: seq<bool>, after: TranslateStore, ok: bool)
    requires i < |ids|
    requires (before, oks) == TranslateRun(ids, replies, clock, store, i)
    requires (after, ok) == TranslateStep(before, ids[i], replies(i), clock(i))
    ensures (after, oks + [ok]) == TranslateRun(ids, replies, clock, store, i + 1)
    ensures CountTrue(oks + [ok]) == CountTrue(oks) + (if ok then 1 else 0)
  {
    TranslateRunUnfold(ids, replies, clock, store, i + 1);
    assert (oks + [ok])[..i] == oks;
  }

  // ---------------------------------------------------------------------
  // The translator object
  // ---------------------------------------------------------------------

  /** GitHubTranslator, with the directories and the ledger file it works on as fields. */
  class GitHubTranslator {
    /** kexue_fm_zh_cn: post id to the content of `{id}.md`; None while it does not exist. */
    var sourceDir: Option<map<string, string>>
    /** kexue_fm_en_us: post id to the content of `{id}.md`. */
    var targetDir: map<string, string>
    /** translated_posts_github.json; None while it does not exist. */
    var metadataFile: Option<seq<TranslatedEntry>>

    constructor (source: Option<map<string, string>>, target: map<string, string>, ledger: Option<seq<TranslatedEntry>>)
      ensures Store() == TranslateStore(source, target, ledger)
    {
      sourceDir := source;
      targetDir := target;
      metadataFile := ledger;
    }

    function Store(): TranslateStore
      reads this
    {
      TranslateStore(sourceDir, targetDir, metadataFile)
    }

    /** save_translated_post: load, append one entry, dump the whole ledger. */
    method SaveTranslatedPost(postId: string, now: Moment)
      modifies this
      ensures Store() == AppendEntry(old(Store()), postId, now)
    {
      var translated := LoadTranslatedPosts(Store());
      translated := translated + [TranslatedEntry(postId, now.iso)];
      metadataFile := Some(translated);
    }

    /** translate_post: returns False when the source file is missing; otherwise writes the target, records the id and returns True. */
    method TranslatePost(postId: string, reply: ApiOutcome, now: Moment) returns (ok: bool)
      modifies this
      ensures (Store(), ok) == TranslateStep(old(Store()), postId, reply, now)
    {
      if sourceDir.None? || postId !in sourceDir.value {
        return false;
      }
      var originalContent := sourceDir.value[postId];
      var translatedContent := TranslateWithGithubApi(reply);
      var content: string;
      if translatedContent.None? || translatedContent.value == "" {
        content := SimpleTranslate(originalContent);
      } else {
        content := translatedContent.value;
      }
      targetDir := targetDir[postId := TranslatedDoc(postId, now.dateTime, ServiceLine, content)];
      SaveTranslatedPost(postId, now);
      ok := true;
    }

    /**
     * translate_all: list the untranslated posts, translate each and
     * return how many succeeded, which is every pending post but the
     * stuck one.
     */
    method TranslateAll(replies: nat -> ApiOutcome, clock: nat -> Moment) returns (successCount: nat, ghost listed: seq<string>)
      modifies this
      ensures IsUntranslatedListing(old(Store()), listed)
      ensures var r := TranslateRun(Stems(listed), replies, clock, old(Store()), |listed|);
        Store() == r.0 && successCount == CountTrue(r.1)
      ensures successCount == |Pending(old(Store())) - Stuck(old(Store()))|
      ensures Pending(Store()) == Pending(old(Store())) * Stuck(old(Store()))
    {
      var posts;
      posts, listed := GetUntranslatedPosts(Store());
      if posts == [] {
        TranslateAllCoversPending(listed, replies, clock, Store());
        return 0, listed;
      }
      successCount := 0;
      ghost var oks: seq<bool> := [];
      for i := 0 to |posts|
        invariant (Store(), oks) == TranslateRun(posts, replies, clock, old(Store()), i)
        invariant successCount == CountTrue(oks)
      {
        ghost var before := Store();
        var ok := TranslatePost(posts[i], replies(i), clock(i));
        TranslateAfterOne(posts, replies, clock, old(Store()), i, before, oks, Store(), ok);
        if ok {
          successCount := successCount + 1;
        }
        oks := oks + [ok];
      }
      TranslateAllCoversPending(listed, replies, clock, old(Store()));
    }
  }
}
