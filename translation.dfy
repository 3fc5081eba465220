/**
 * What the two translators share: the source and target directories, the
 * translation ledger, the listing of posts still to translate, and the
 * header put in front of every translated post.
 *
 * Both translators read `kexue_fm_zh_cn/{id}.md` and write
 * `kexue_fm_en_us/{id}.md`; each keeps its own ledger file of
 * `{id, translated_at}` entries. The directories are maps from post id to
 * file content; the source directory is None when it does not exist.
 */
module Translation {
  import opened Wrappers
  import opened Text
  import opened Pipeline

  datatype TranslatedEntry = TranslatedEntry(id: string, translatedAt: string)

  /** The source directory (None while it does not exist), the target directory and the ledger file (None while it does not exist). */
  datatype TranslateStore = TranslateStore(
    source: Option<map<string, string>>,
    target: map<string, string>,
    ledger: Option<seq<TranslatedEntry>>)

  /** load_translated_posts: the stored entries, or none when there is no ledger file. */
  function LoadTranslatedPosts(store: TranslateStore): (entries: seq<TranslatedEntry>)
    ensures store.ledger.None? ==> entries == []
    ensures store.ledger.Some? ==> entries == store.ledger.value
  {
    if store.ledger.Some? then store.ledger.value else []
  }

  function LedgerIds(entries: seq<TranslatedEntry>): (ids: seq<string>)
    ensures |ids| == |entries|
    ensures forall k :: 0 <= k < |entries| ==> ids[k] == entries[k].id
  {
    seq(|entries|, k requires 0 <= k < |entries| => entries[k].id)
  }

  /** The ids of the ledger, in ledger order. */
  function StoredIds(store: TranslateStore): seq<string> {
    LedgerIds(LoadTranslatedPosts(store))
  }

  /** `translated_ids`: the set of recorded ids. */
  function TranslatedIds(store: TranslateStore): (ids: set<string>)
    ensures forall x :: x in ids <==> x in StoredIds(store)
  {
    set x | x in StoredIds(store)
  }

  /** The source file `{id}.md` exists. */
  predicate HasSource(store: TranslateStore, id: string) {
    store.source.Some? && id in store.source.value
  }

  /** The ids of the source files, each the name of its file without ".md"; none when the source directory does not exist. */
  function SourceIds(store: TranslateStore): (ids: set<string>)
    ensures store.source.None? ==> ids == {}
    ensures forall x :: x in ids <==> HasSource(store, x)
  {
    if store.source.Some? then store.source.value.Keys else {}
  }

  /**
   * The stem pathlib gives the file `{id}.md`: the id itself, except that
   * the file `.md` (an empty id) is a name with no suffix, so its stem is
   * ".md" and not "".
   */
  function Stem(id: string): string {
    if id == "" then ".md" else id
  }

  /** Two files have the same stem only when they are the same file or the pair `.md` and `.md.md`. */
  lemma {:induction false} StemsCollide(id: string, id': string)
    ensures Stem(id) == Stem(id') <==> id == id' || (id == "" && id' == ".md") || (id == ".md" && id' == "")
    ensures Stem(id) == id <==> id != ""
  {
  }

  /** The stems of a list of source files, in order. */
  function Stems(files: seq<string>): (stems: seq<string>)
    ensures |stems| == |files|
    ensures forall k :: 0 <= k < |files| ==> stems[k] == Stem(files[k])
  {
    seq(|files|, k requires 0 <= k < |files| => Stem(files[k]))
  }

  /** No two source files share a stem: `.md` and `.md.md` are not both there. */
  predicate StemsDistinct(store: TranslateStore) {
    !("" in SourceIds(store) && ".md" in SourceIds(store))
  }

  /** The source files get_untranslated_posts lists: those whose stem has no ledger entry. */
  function Pending(store: TranslateStore): set<string> {
    set x | x in SourceIds(store) && Stem(x) !in TranslatedIds(store)
  }

  /** A list of the pending source files, each exactly once, in some order. */
  ghost predicate IsUntranslatedListing(store: TranslateStore, files: seq<string>) {
    NoDup(files) && forall x :: x in files <==> x in Pending(store)
  }

  /**
   * get_untranslated_posts: the stems of the source `.md` files that have
   * no ledger entry. The directory is enumerated in an unspecified order,
   * so the order is not determined; `files` is the enumeration that was
   * taken. An absent source directory gives the empty list.
   */
  method GetUntranslatedPosts(store: TranslateStore) returns (untranslated: seq<string>, ghost files: seq<string>)
    ensures IsUntranslatedListing(store, files)
    ensures untranslated == Stems(files)
  {
    var translatedIds := TranslatedIds(store);
    untranslated := [];
    files := [];
    if store.source.Some? {
      var remaining := store.source.value.Keys;
      while remaining != {}
        invariant remaining <= store.source.value.Keys
        invariant NoDup(files)
        invariant untranslated == Stems(files)
        invariant forall x :: x in files ==> x !in remaining
        invariant forall x :: x in files <==>
            x in store.source.value.Keys && x !in remaining && Stem(x) !in translatedIds
        decreases remaining
      {
        var fileId :| fileId in remaining;
        var postId := Stem(fileId);
        if postId !in translatedIds {
          NoDupAppend(files, fileId);
          files := files + [fileId];
          untranslated := untranslated + [postId];
        }
        remaining := remaining - {fileId};
      }
    }
  }

  /** A listing holds as many files as there are pending ones. */
  lemma {:induction false} ListingSize(store: TranslateStore, files: seq<string>)
    requires IsUntranslatedListing(store, files)
    ensures |files| == |Pending(store)|
  {
    NoDupCardinality(files);
    assert (set x | x in files) == Pending(store);
  }

  /** With nothing pending the only listing is the empty one, and translate_all returns 0 at once. */
  lemma {:induction false} NothingPendingListsNothing(store: TranslateStore, files: seq<string>)
    requires IsUntranslatedListing(store, files)
    ensures Pending(store) == {} <==> files == []
  {
    if files != [] {
      assert files[0] in Pending(store);
    }
  }

  /** When no two source files share a stem, the listed stems are distinct too. */
  lemma {:induction false} ListedStemsDistinct(store: TranslateStore, files: seq<string>)
    requires IsUntranslatedListing(store, files) && StemsDistinct(store)
    ensures NoDup(Stems(files))
  {
    var ids := Stems(files);
    forall i, j | 0 <= i < j < |ids|
      ensures ids[i] != ids[j]
    {
      assert files[i] in Pending(store) && files[j] in Pending(store);
      assert files[i] != files[j];
      StemsCollide(files[i], files[j]);
    }
  }

  /** save_translated_post: reload the ledger, append one entry and write the whole ledger back. */
  function AppendEntry(store: TranslateStore, postId: string, now: Moment): (r: TranslateStore)
    ensures LoadTranslatedPosts(r) == LoadTranslatedPosts(store) + [TranslatedEntry(postId, now.iso)]
    ensures StoredIds(r) == StoredIds(store) + [postId]
    ensures r.source == store.source && r.target == store.target
  {
    TranslateStore(store.source, store.target, Some(LoadTranslatedPosts(store) + [TranslatedEntry(postId, now.iso)]))
  }

  /** The ids among the first `|oks|` listed ones whose translation succeeded, in listing order. */
  function Succeeded(ids: seq<string>, oks: seq<bool>): seq<string>
    requires |oks| <= |ids|
  {
    Kept(ids[..|oks|], oks)
  }

  /** Succeeded over one more listed id. */
  lemma {:induction false} SucceededStep(ids: seq<string>, oks: seq<bool>, ok: bool)
    requires |oks| < |ids|
    ensures Succeeded(ids, oks + [ok]) == Succeeded(ids, oks) + (if ok then [ids[|oks|]] else [])
  {
    var n := |oks|;
    assert ids[..n + 1] == ids[..n] + [ids[n]];
    KeptSnoc(ids[..n], oks, ids[n], ok);
  }

  /**
   * The ledger after translate_all: the old ids followed by the stems of
   * the listed files that were translated. Then a translated file is no
   * longer pending and nothing outside the listing is. When no two source
   * files share a stem, exactly the failed files are still pending, so the
   * next run lists them again, and a ledger without duplicate ids stays so.
   */
  lemma {:induction false} PendingAfterRun(store: TranslateStore, after: TranslateStore, files: seq<string>, oks: seq<bool>)
    requires IsUntranslatedListing(store, files) && |oks| == |files|
    requires after.source == store.source
    requires StoredIds(after) == StoredIds(store) + Succeeded(Stems(files), oks)
    ensures forall i :: 0 <= i < |files| && oks[i] ==> files[i] !in Pending(after)
    ensures forall x :: x in Pending(after) ==> x in files
    ensures StemsDistinct(store) ==>
      forall i :: 0 <= i < |files| ==> (files[i] in Pending(after) <==> !oks[i])
    ensures StemsDistinct(store) && NoDup(StoredIds(store)) ==> NoDup(StoredIds(after))
  {
    var ids := Stems(files);
    var kept := Kept(ids, oks);
    assert ids[..|oks|] == ids;
    assert forall x :: x in StoredIds(after) <==> x in StoredIds(store) || x in kept;
    forall i | 0 <= i < |files| && oks[i]
      ensures files[i] !in Pending(after)
    {
      KeptHas(ids, oks, i);
    }
    if StemsDistinct(store) {
      ListedStemsDistinct(store, files);
      forall i | 0 <= i < |files|
        ensures files[i] in Pending(after) <==> !oks[i]
      {
        assert files[i] in Pending(store);
        if ids[i] in kept {
          KeptFrom(ids, oks, ids[i]);
          var k :| 0 <= k < |ids| && oks[k] && ids[k] == ids[i];
          assert k == i;
        }
      }
      if NoDup(StoredIds(store)) {
        KeptNoDup(ids, oks);
        KeptWithin(ids, oks);
        forall x | x in kept
          ensures x !in StoredIds(store)
        {
          var k :| 0 <= k < |ids| && ids[k] == x;
          assert files[k] in Pending(store);
        }
        NoDupConcat(StoredIds(store), kept);
      }
    }
  }

  // ---------------------------------------------------------------------
  // The translation header
  // ---------------------------------------------------------------------

  const TranslatedTitle: string := "# (Translated)"
  const OriginalIdLabel: string := "**Original ID**: "
  const TranslationDateLabel: string := "**Translation Date**: "

  /** "# (Translated)", a blank line, the id, the date and the service line, a blank line, "---", a blank line. */
  function HeaderLines(postId: string, dateTime: string, serviceLine: string): seq<string> {
    [TranslatedTitle, "", OriginalIdLabel + postId, TranslationDateLabel + dateTime, serviceLine, "", "---", ""]
  }

  /** The content of a translated post: the header lines, then the translated text. */
  function TranslatedDoc(postId: string, dateTime: string, serviceLine: string, content: string): string {
    JoinLines(HeaderLines(postId, dateTime, serviceLine)) + content
  }

  /** Reads the id, the date, the service line and the text back from a translated post. */
  function ParseTranslatedDoc(s: string): Option<(string, string, string, string)> {
    match TakeLines(s, 8)
    case None => None
    case Some((lines, rest)) =>
      var postId := After(lines[2], OriginalIdLabel);
      var dateTime := After(lines[3], TranslationDateLabel);
      if lines[0] == TranslatedTitle && lines[1] == "" && postId.Some? && dateTime.Some?
        && lines[5] == "" && lines[6] == "---" && lines[7] == ""
      then Some((postId.value, dateTime.value, lines[4], rest))
      else None
  }

  /** The header gives back the post id, the date and the service, and the text follows it unchanged. */
  lemma {:induction false} TranslatedDocRoundTrip(postId: string, dateTime: string, serviceLine: string, content: string)
    requires '\n' !in postId && '\n' !in dateTime && '\n' !in serviceLine
    ensures ParseTranslatedDoc(TranslatedDoc(postId, dateTime, serviceLine, content))
      == Some((postId, dateTime, serviceLine, content))
  {
    var lines := HeaderLines(postId, dateTime, serviceLine);
    assert NoLineBreaks(lines) by {
      assert '\n' !in TranslatedTitle && '\n' !in OriginalIdLabel && '\n' !in TranslationDateLabel;
    }
    TakeLinesOf(lines, content);
    assert TakeLines(TranslatedDoc(postId, dateTime, serviceLine, content), 8) == Some((lines, content));
    AfterPrefix(OriginalIdLabel, postId);
    AfterPrefix(TranslationDateLabel, dateTime);
  }
}
