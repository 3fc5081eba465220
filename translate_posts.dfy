/**
 * The claude-code-actions translator: every source post without an entry
 * in the ledger `translated_posts.json` is handed to the external tool,
 * which is asked to write the translation to the target file. The post
 * counts as translated only when the tool exits with code 0 and the
 * target file then exists; the translator then puts the translation
 * header in front of the file's content and records the post. Any other
 * outcome leaves the ledger as it was, so the post is listed again on the
 * next run.
 *
 * The tool's effect for the k-th listed post is a parameter (`tools(k)`),
 * and so is the clock.
 */
module ClaudeTranslate {
  import opened Wrappers
  import opened Text
  import opened Pipeline
  import opened Translation

  /** The service line of the header this translator writes. */
  const ServiceLine: string := "**Translation Service**: claude-code-actions"

  /**
   * What running the external tool came to: it ran and exited with a
   * return code, or starting or talking to it raised an exception. In both
   * cases `wrote` is what it left in the target file, if it wrote one.
   */
  datatype ToolOutcome = Ran(returnCode: int, wrote: Option<string>) | Raised(wrote: Option<string>)

  /** The target directory after the tool has run: its output file, if it wrote one. */
  function AfterTool(target: map<string, string>, postId: string, tool: ToolOutcome): (r: map<string, string>)
    ensures postId in r <==> tool.wrote.Some? || postId in target
    ensures forall x :: x != postId ==> (x in r <==> x in target)
    ensures forall x :: x != postId && x in target ==> r[x] == target[x]
  {
    if tool.wrote.Some? then target[postId := tool.wrote.value] else target
  }

  /**
   * translate_post: nothing at all when the source file is missing;
   * otherwise the tool runs, and when it exited with 0 and the target file
   * exists, that file gets the header in front of its content and the id
   * is recorded.
   */
  function TranslateStep(store: TranslateStore, postId: string, tool: ToolOutcome, now: Moment): (TranslateStore, bool) {
    if !HasSource(store, postId) then
      (store, false)
    else
      var target := AfterTool(store.target, postId, tool);
      if tool.Ran? && tool.returnCode == 0 && postId in target then
        var doc := TranslatedDoc(postId, now.dateTime, ServiceLine, target[postId]);
        (AppendEntry(TranslateStore(store.source, target[postId := doc], store.ledger), postId, now), true)
      else
        (TranslateStore(store.source, target, store.ledger), false)
  }

  /**
   * One post: True exactly when the source file exists, the tool exited
   * with 0 and the target file exists afterwards; then the target is the
   * header followed by what the file held and exactly one entry is
   * appended. Otherwise the ledger is unchanged, and a missing source file
   * changes nothing at all. Other target files are never touched.
   */
  lemma {:induction false} TranslateStepEffect(store: TranslateStore, postId: string, tool: ToolOutcome, now: Moment)
    ensures var r := TranslateStep(store, postId, tool, now);
      && (r.1 <==> HasSource(store, postId) && tool.Ran? && tool.returnCode == 0
                   && (tool.wrote.Some? || postId in store.target))
      && (!HasSource(store, postId) ==> r.0 == store)
      && r.0.source == store.source
      && (!r.1 ==> r.0.ledger == store.ledger)
      && (r.1 ==>
        var output := if tool.wrote.Some? then tool.wrote.value else store.target[postId];
        && LoadTranslatedPosts(r.0) == LoadTranslatedPosts(store) + [TranslatedEntry(postId, now.iso)]
        && postId in r.0.target
        && r.0.target[postId] == TranslatedDoc(postId, now.dateTime, ServiceLine, output))
      && (forall x :: x != postId ==> (x in r.0.target <==> x in store.target))
      && (forall x :: x != postId && x in store.target ==> r.0.target[x] == store.target[x])
  {
  }

  /** The header of a translated post gives back the post id, the date and "claude-code-actions", followed by the tool's output. */
  lemma {:induction false} TranslatedPostReadsBack(store: TranslateStore, postId: string, tool: ToolOutcome, now: Moment)
    requires TranslateStep(store, postId, tool, now).1
    requires '\n' !in postId && '\n' !in now.dateTime
    ensures var r := TranslateStep(store, postId, tool, now).0;
      var output := if tool.wrote.Some? then tool.wrote.value else store.target[postId];
      postId in r.target && ParseTranslatedDoc(r.target[postId]) == Some((postId, now.dateTime, ServiceLine, output))
  {
    var output := if tool.wrote.Some? then tool.wrote.value else store.target[postId];
    TranslateStepEffect(store, postId, tool, now);
    TranslatedDocRoundTrip(postId, now.dateTime, ServiceLine, output);
  }

  /** What one step does to the ledger ids and the source directory. */
  lemma {:induction false} TranslateStepSummary(store: TranslateStore, postId: string, tool: ToolOutcome, now: Moment)
    ensures var r := TranslateStep(store, postId, tool, now);
      && r.0.source == store.source
      && (r.1 ==> HasSource(store, postId))
      && StoredIds(r.0) == StoredIds(store) + (if r.1 then [postId] else [])
      && |LoadTranslatedPosts(r.0)| == |LoadTranslatedPosts(store)| + (if r.1 then 1 else 0)
  {
    var r := TranslateStep(store, postId, tool, now);
    if !r.1 {
      assert LoadTranslatedPosts(r.0) == LoadTranslatedPosts(store);
      assert StoredIds(store) + [] == StoredIds(store);
    }
  }

  /** The store and the results after translate_all has handled the first `n` listed ids. */
  function TranslateRun(ids: seq<string>, tools: nat -> ToolOutcome, clock: nat -> Moment, store: TranslateStore, n: nat)
    : (r: (TranslateStore, seq<bool>))
    requires n <= |ids|
    ensures |r.1| == n
  {
    Fold(StepAt(ids, tools, clock), store, n)
  }

  /** The step translate_all takes at listing position `k`. */
  function StepAt(ids: seq<string>, tools: nat -> ToolOutcome, clock: nat -> Moment): (TranslateStore, nat) -> (TranslateStore, bool) {
    (s: TranslateStore, k: nat) => if k < |ids| then TranslateStep(s, ids[k], tools(k), clock(k)) else (s, false)
  }

  /** A run over `n` ids is the run over the first `n - 1` followed by the step at position `n - 1`. */
  lemma {:induction false} TranslateRunUnfold(ids: seq<string>, tools: nat -> ToolOutcome, clock: nat -> Moment, store: TranslateStore, n: nat)
    requires 0 < n <= |ids|
    ensures var before := TranslateRun(ids, tools, clock, store, n - 1);
      var step := TranslateStep(before.0, ids[n - 1], tools(n - 1), clock(n - 1));
      TranslateRun(ids, tools, clock, store, n) == (step.0, before.1 + [step.1])
  {
    var before := TranslateRun(ids, tools, clock, store, n - 1);
    assert StepAt(ids, tools, clock)(before.0, n - 1) == TranslateStep(before.0, ids[n - 1], tools(n - 1), clock(n - 1));
  }

  /** A run never changes the source directory. */
  lemma {:induction false} TranslateRunKeepsSource(ids: seq<string>, tools: nat -> ToolOutcome, clock: nat -> Moment,
                                                   store: TranslateStore, n: nat)
    requires n <= |ids|
    ensures TranslateRun(ids, tools, clock, store, n).0.source == store.source
  {
    if n > 0 {
      TranslateRunKeepsSource(ids, tools, clock, store, n - 1);
      TranslateRunUnfold(ids, tools, clock, store, n);
      var before := TranslateRun(ids, tools, clock, store, n - 1);
      TranslateStepSummary(before.0, ids[n - 1], tools(n - 1), clock(n - 1));
    }
  }

  /** A run appends exactly the ids it translated to the ledger, in listing order. */
  lemma {:induction false} TranslateRunLedger(ids: seq<string>, tools: nat -> ToolOutcome, clock: nat -> Moment,
                                              store: TranslateStore, n: nat)
    requires n <= |ids|
    ensures var r := TranslateRun(ids, tools, clock, store, n);
      StoredIds(r.0) == StoredIds(store) + Succeeded(ids, r.1)
  {
    if n > 0 {
      TranslateRunLedger(ids, tools, clock, store, n - 1);
      var before := TranslateRun(ids, tools, clock, store, n - 1);
      var step := TranslateStep(before.0, ids[n - 1], tools(n - 1), clock(n - 1));
      TranslateRunUnfold(ids, tools, clock, store, n);
      TranslateStepSummary(before.0, ids[n - 1], tools(n - 1), clock(n - 1));
      SucceededStep(ids, before.1, step.1);
      assert (before.1 + [step.1])[..n - 1] == before.1;
      AppendAssoc(StoredIds(store), Succeeded(ids, before.1), if step.1 then [ids[n - 1]] else [],
                  StoredIds(before.0), StoredIds(step.0));
    }
  }

  /**
   * translate_all over a listing of the pending files: the count is the
   * number of entries appended; a translated file is no longer pending and
   * nothing outside the listing is. When no two source files share a stem,
   * exactly the failed files are still pending, so the next run lists them
   * again, and a ledger without duplicate ids stays so.
   */
  lemma {:induction false} TranslateAllRecordsSuccesses(files: seq<string>, tools: nat -> ToolOutcome, clock: nat -> Moment, store: TranslateStore)
    requires IsUntranslatedListing(store, files)
    ensures var r := TranslateRun(Stems(files), tools, clock, store, |files|);
      && CountTrue(r.1) == |LoadTranslatedPosts(r.0)| - |LoadTranslatedPosts(store)|
      && (forall i :: 0 <= i < |files| && r.1[i] ==> files[i] !in Pending(r.0))
      && (forall x :: x in Pending(r.0) ==> x in files)
      && (StemsDistinct(store) ==> forall i :: 0 <= i < |files| ==> (files[i] in Pending(r.0) <==> !r.1[i]))
      && (StemsDistinct(store) && NoDup(StoredIds(store)) ==> NoDup(StoredIds(r.0)))
  {
    var r := TranslateRun(Stems(files), tools, clock, store, |files|);
    TranslateRunKeepsSource(Stems(files), tools, clock, store, |files|);
    TranslateRunLedger(Stems(files), tools, clock, store, |files|);
    PendingAfterRun(store, r.0, files, r.1);
  }

  /** A source file whose translation failed is listed again by the next run, when no two source files share a stem. */
  lemma {:induction false} FailedPostIsRelisted(files: seq<string>, tools: nat -> ToolOutcome, clock: nat -> Moment, store: TranslateStore,
                             i: nat, next: seq<string>)
    requires IsUntranslatedListing(store, files) && StemsDistinct(store)
    requires i < |files| && !TranslateRun(Stems(files), tools, clock, store, |files|).1[i]
    requires IsUntranslatedListing(TranslateRun(Stems(files), tools, clock, store, |files|).0, next)
    ensures files[i] in next
  {
    TranslateAllRecordsSuccesses(files, tools, clock, store);
  }

  /** One pass of translate_all's loop body over the store the earlier ids left extends the run by one id. */
  lemma {:induction false} TranslateAfterOne(ids: seq<string>, tools: nat -> ToolOutcome, clock: nat -> Moment, store: TranslateStore,
                                            i: nat, before: TranslateStore, oks: seq<bool>, after: TranslateStore, ok: bool)
    requires i < |ids|
    requires (before, oks) == TranslateRun(ids, tools, clock, store, i)
    requires (after, ok) == TranslateStep(before, ids[i], tools(i), clock(i))
    ensures (after, oks + [ok]) == TranslateRun(ids, tools, clock, store, i + 1)
    ensures CountTrue(oks + [ok]) == CountTrue(oks) + (if ok then 1 else 0)
  {
    TranslateRunUnfold(ids, tools, clock, store, i + 1);
    assert (oks + [ok])[..i] == oks;
  }

  // ---------------------------------------------------------------------
  // The translator object
  // ---------------------------------------------------------------------

  /** PostTranslator, with the directories and the ledger file it works on as fields. */
  class PostTranslator {
    /** kexue_fm_zh_cn: post id to the content of `{id}.md`; None while it does not exist. */
    var sourceDir: Option<map<string, string>>
    /** kexue_fm_en_us: post id to the content of `{id}.md`. */
    var targetDir: map<string, string>
    /** translated_posts.json; None while it does not exist. */
    var metadataFile: Option<seq<TranslatedEntry>>

    constructor (source: Option<map<string, string>>, target: map<string, string>, ledger: Option<seq<TranslatedEntry>>)
      ensures Store() == TranslateStore(source, target, ledger)
    {
      sourceDir := source;
      targetDir := target;
      metadataFile := ledger;
    }

    function Store(): TranslateStore
      reads this
    {
      TranslateStore(sourceDir, targetDir, metadataFile)
    }

    /** save_translated_post: load, append one entry, dump the whole ledger. */
    method SaveTranslatedPost(postId: string, now: Moment)
      modifies this
      ensures Store() == AppendEntry(old(Store()), postId, now)
    {
      var translated := LoadTranslatedPosts(Store());
      translated := translated + [TranslatedEntry(postId, now.iso)];
      metadataFile := Some(translated);
    }

    /**
     * translate_post: False when the source file is missing; otherwise run
     * the tool, and on return code 0 with an existing target file rewrite
     * it with the header in front, record the id and return True.
     */
    method TranslatePost(postId: string, tool: ToolOutcome, now: Moment) returns (ok: bool)
      modifies this
      ensures (Store(), ok) == TranslateStep(old(Store()), postId, tool, now)
    {
      if sourceDir.None? || postId !in sourceDir.value {
        return false;
      }
      targetDir := AfterTool(targetDir, postId, tool);
      if tool.Ran? && tool.returnCode == 0 {
        if postId in targetDir {
          var translatedContent := targetDir[postId];
          targetDir := targetDir[postId := TranslatedDoc(postId, now.dateTime, ServiceLine, translatedContent)];
          SaveTranslatedPost(postId, now);
          return true;
        } else {
          return false;
        }
      } else {
        return false;
      }
    }

    /**
     * translate_all: list the untranslated posts, translate each and
     * return how many succeeded, which is the number of entries appended.
     */
    method TranslateAll(tools: nat -> ToolOutcome, clock: nat -> Moment) returns (successCount: nat, ghost listed: seq<string>)
      modifies this
      ensures IsUntranslatedListing(old(Store()), listed)
      ensures var r := TranslateRun(Stems(listed), tools, clock, old(Store()), |listed|);
        Store() == r.0 && successCount == CountTrue(r.1)
      ensures successCount == |LoadTranslatedPosts(Store())| - |LoadTranslatedPosts(old(Store()))|
    {
      var posts;
      posts, listed := GetUntranslatedPosts(Store());
      if posts == [] {
        return 0, listed;
      }
      successCount := 0;
      ghost var oks: seq<bool> := [];
      for i := 0 to |posts|
        invariant (Store(), oks) == TranslateRun(posts, tools, clock, old(Store()), i)
        invariant successCount == CountTrue(oks)
      {
        ghost var before := Store();
        var ok := TranslatePost(posts[i], tools(i), clock(i));
        TranslateAfterOne(posts, tools, clock, old(Store()), i, before, oks, Store(), ok);
        if ok {
          successCount := successCount + 1;
        }
        oks := oks + [ok];
      }
      TranslateRunLedger(posts, tools, clock, old(Store()), |posts|);
    }
  }
}
