/**
 * The outcome loop of the app: every collected page is extracted and
 * fingerprinted; a page whose fingerprint was seen before is skipped as a
 * duplicate, a page with content beyond its title is saved and its
 * fingerprint remembered, and any other page is reported as empty.
 */
module Outcomes {
  import opened Wrappers
  import opened Dom
  import opened Config
  import opened Extractor
  import opened Fingerprint
  import opened Crawl

  /** The outcome reported for one page; `Duplicate` and `NoContent` both
      count as failures. */
  datatype Outcome = Duplicate(url: string) | Saved(url: string) | NoContent(url: string)

  /** An extracted page: its URL, its blocks and their fingerprint. */
  datatype Page = Page(url: string, blocks: seq<Block>, digest: string)

  /** The page of a task's blocks, fingerprinted by `hash_content`. */
  function PageOf(url: string, blocks: seq<Block>, md5: string -> string): (p: Page)
    ensures p.url == url && p.blocks == blocks && p.digest == md5(Canonical(blocks))
  {
    Page(url, blocks, md5(Canonical(blocks)))
  }

  /** The outcome of one page given the fingerprints seen so far: the
      duplicate test comes before the content test. */
  function Decide(seen: set<string>, p: Page): Outcome {
    if p.digest in seen then Duplicate(p.url)
    else if |p.blocks| > 1 then Saved(p.url)
    else NoContent(p.url)
  }

  /** The seen fingerprints after the pages in order. */
  function SeenAfter(seen: set<string>, pages: seq<Page>): set<string>
    decreases |pages|
  {
    if pages == [] then seen
    else
      var s := SeenAfter(seen, pages[..|pages| - 1]);
      var p := pages[|pages| - 1];
      if Decide(s, p).Saved? then s + {p.digest} else s
  }

  /** The outcomes of the pages in order. */
  function Replay(seen: set<string>, pages: seq<Page>): (outs: seq<Outcome>)
    ensures |outs| == |pages|
    decreases |pages|
  {
    if pages == [] then []
    else
      var init := pages[..|pages| - 1];
      Replay(seen, init) + [Decide(SeenAfter(seen, init), pages[|pages| - 1])]
  }

  /** The number of saved outcomes: `succ`. */
  function CountSaved(outs: seq<Outcome>): nat
    decreases |outs|
  {
    if outs == [] then 0
    else CountSaved(outs[..|outs| - 1]) + (if outs[|outs| - 1].Saved? then 1 else 0)
  }

  /** The page of one task: its blocks as `process_content` extracts them
      from the parsed HTML, or nothing when extraction raises. */
  function TaskPage(t: Task, opts: Options, parse: string -> seq<Node>, md5: string -> string): Option<Page> {
    match Extract(Document(parse(t.html)), opts)
    case Success(blocks) => Some(PageOf(t.url, blocks, md5))
    case Failure(_) => None
  }

  /** The pages of tasks whose extraction succeeds. */
  function PagesOf(tasks: seq<Task>, opts: Options, parse: string -> seq<Node>, md5: string -> string): (pages: seq<Page>)
    requires forall k :: 0 <= k < |tasks| ==> TaskPage(tasks[k], opts, parse, md5).Some?
    ensures |pages| == |tasks|
    ensures forall k :: 0 <= k < |tasks| ==> Some(pages[k]) == TaskPage(tasks[k], opts, parse, md5)
  {
    seq(|tasks|, k requires 0 <= k < |tasks| => TaskPage(tasks[k], opts, parse, md5).value)
  }

  // ---------------------------------------------------------------------
  // Properties of the replay

  /** The outcome of page `i` is decided against the fingerprints seen
      after the pages before it. */
  lemma {:induction false} ReplayAt(seen: set<string>, pages: seq<Page>, i: int)
    requires 0 <= i < |pages|
    ensures Replay(seen, pages)[i] == Decide(SeenAfter(seen, pages[..i]), pages[i])
    decreases |pages|
  {
    var n := |pages| - 1;
    if i < n {
      ReplayAt(seen, pages[..n], i);
      assert pages[..n][..i] == pages[..i];
    }
  }

  /** The seen set only grows, and by one fingerprint per saved page. */
  lemma {:induction false} SeenGrowth(seen: set<string>, pages: seq<Page>)
    ensures seen <= SeenAfter(seen, pages)
    ensures |SeenAfter(seen, pages)| == |seen| + CountSaved(Replay(seen, pages))
    decreases |pages|
  {
    if pages != [] {
      var n := |pages| - 1;
      var init := pages[..n];
      SeenGrowth(seen, init);
      var outs := Replay(seen, pages);
      assert outs[..n] == Replay(seen, init);
    }
  }

  /** The seen set after the pages holds the initial fingerprints and
      those of the saved pages, and nothing else. */
  lemma {:induction false} SeenMembers(seen: set<string>, pages: seq<Page>, h: string)
    ensures h in SeenAfter(seen, pages) <==>
      h in seen || exists i :: 0 <= i < |pages| && Replay(seen, pages)[i].Saved? && pages[i].digest == h
    decreases |pages|
  {
    if pages != [] {
      var n := |pages| - 1;
      var init := pages[..n];
      SeenMembers(seen, init, h);
      var outs := Replay(seen, pages);
      assert outs == Replay(seen, init) + [outs[n]];
      if exists i :: 0 <= i < n && outs[i].Saved? && pages[i].digest == h {
        var i :| 0 <= i < n && outs[i].Saved? && pages[i].digest == h;
        assert Replay(seen, init)[i].Saved? && init[i].digest == h;
      }
      if exists i :: 0 <= i < n && Replay(seen, init)[i].Saved? && init[i].digest == h {
        var i :| 0 <= i < n && Replay(seen, init)[i].Saved? && init[i].digest == h;
        assert outs[i].Saved? && pages[i].digest == h;
      }
    }
  }

  /** A saved page has content beyond its title and a fingerprint not seen
      before, either initially or on an earlier saved page; in particular a
      title-only page never enters the seen set. */
  lemma SavedPages(seen: set<string>, pages: seq<Page>, i: int)
    requires 0 <= i < |pages| && Replay(seen, pages)[i].Saved?
    ensures |pages[i].blocks| > 1
    ensures pages[i].digest !in seen
    ensures forall j :: 0 <= j < i && Replay(seen, pages)[j].Saved? ==>
      pages[j].digest != pages[i].digest
  {
    ReplayAt(seen, pages, i);
    SeenGrowth(seen, pages[..i]);
    forall j | 0 <= j < i && Replay(seen, pages)[j].Saved?
      ensures pages[j].digest != pages[i].digest
    {
      ReplayAt(seen, pages, j);
      ReplayAt(seen, pages[..i], j);
      assert pages[..i][..j] == pages[..j];
      SeenMembers(seen, pages[..i], pages[j].digest);
    }
  }

  /** A page that repeats the fingerprint of an earlier saved page is
      reported as a duplicate. */
  lemma RepeatIsDuplicate(seen: set<string>, pages: seq<Page>, i: int, j: int)
    requires 0 <= i < j < |pages| && Replay(seen, pages)[i].Saved?
    requires pages[i].digest == pages[j].digest
    ensures Replay(seen, pages)[j] == Duplicate(pages[j].url)
  {
    ReplayAt(seen, pages, j);
    ReplayAt(seen, pages, i);
    ReplayAt(seen, pages[..j], i);
    assert pages[..j][..i] == pages[..i];
    SeenMembers(seen, pages[..j], pages[j].digest);
  }

  /** A later page whose blocks differ from a saved page's only in letter
      case, paragraph runs and list items is a duplicate. */
  lemma CaseVariantIsDuplicate(seen: set<string>, pages: seq<Page>, md5: string -> string, i: int, j: int)
    requires 0 <= i < j < |pages| && Replay(seen, pages)[i].Saved?
    requires pages[i].digest == md5(Canonical(pages[i].blocks)) && pages[j].digest == md5(Canonical(pages[j].blocks))
    requires |pages[i].blocks| == |pages[j].blocks|
    requires forall k :: 0 <= k < |pages[i].blocks| ==> Erase(pages[i].blocks[k]) == Erase(pages[j].blocks[k])
    ensures Replay(seen, pages)[j].Duplicate?
  {
    CanonicalIgnoresCaseAndRuns(pages[i].blocks, pages[j].blocks);
    RepeatIsDuplicate(seen, pages, i, j);
  }

  /** The fingerprints seen across runs of the outcome loop. */
  class Session {
    var seenHashes: set<string>

    constructor ()
      ensures seenHashes == {}
    {
      seenHashes := {};
    }

    /** The body of the outcome loop for one extracted page: the
        duplicate test, then the content test. */
    method Record(page: Page) returns (outcome: Outcome)
      modifies this
      ensures outcome == Decide(old(seenHashes), page)
      ensures seenHashes == if outcome.Saved? then old(seenHashes) + {page.digest} else old(seenHashes)
    {
      if page.digest in seenHashes {
        outcome := Duplicate(page.url);
      } else if |page.blocks| > 1 {
        seenHashes := seenHashes + {page.digest};
        outcome := Saved(page.url);
      } else {
        outcome := NoContent(page.url);
      }
    }

    /** The outcome loop over the tasks. Extraction raises on a page without
        a `body`, which ends the loop: `aborted` reports that, and the
        outcomes cover the tasks before it. */
    method ProcessTasks(tasks: seq<Task>, opts: Options, parse: string -> seq<Node>, md5: string -> string)
      returns (succ: nat, fail: nat, results: seq<Outcome>, aborted: bool)
      modifies this
      ensures |results| <= |tasks| && (aborted <==> |results| < |tasks|)
      ensures forall k :: 0 <= k < |results| ==> TaskPage(tasks[k], opts, parse, md5).Some?
      ensures aborted ==> TaskPage(tasks[|results|], opts, parse, md5).None?
      ensures results == Replay(old(seenHashes), PagesOf(tasks[..|results|], opts, parse, md5))
      ensures seenHashes == SeenAfter(old(seenHashes), PagesOf(tasks[..|results|], opts, parse, md5))
      ensures succ == CountSaved(results) && succ + fail == |results|
    {
      ghost var seen0 := seenHashes;
      ghost var pages: seq<Page> := [];
      succ, fail, results, aborted := 0, 0, [], false;
      var i := 0;
      while i < |tasks|
        invariant 0 <= i <= |tasks| && |results| == i && |pages| == i
        invariant forall k :: 0 <= k < i ==> TaskPage(tasks[k], opts, parse, md5) == Some(pages[k])
        invariant results == Replay(seen0, pages)
        invariant seenHashes == SeenAfter(seen0, pages)
        invariant succ == CountSaved(results) && succ + fail == i
      {
        var page := ExtractTask(tasks[i], opts, parse, md5);
        if page.None? {
          aborted := true;
          break;
        }
        var outcome := Record(page.value);
        if outcome.Saved? {
          succ := succ + 1;
        } else {
          fail := fail + 1;
        }
        PagesExtend(tasks, pages, page.value, opts, parse, md5);
        ReplaySnoc(seen0, pages, page.value);
        CountSavedSnoc(results, outcome);
        pages := pages + [page.value];
        results := results + [outcome];
        i := i + 1;
      }
      PagesOfPrefix(tasks, pages, opts, parse, md5);
    }
  }

  /** One more page: its outcome is decided against the seen set left by
      the pages before it, and only a save adds its fingerprint. */
  lemma ReplaySnoc(seen: set<string>, pages: seq<Page>, p: Page)
    ensures Replay(seen, pages + [p]) == Replay(seen, pages) + [Decide(SeenAfter(seen, pages), p)]
    ensures SeenAfter(seen, pages + [p]) ==
      if Decide(SeenAfter(seen, pages), p).Saved? then SeenAfter(seen, pages) + {p.digest}
      else SeenAfter(seen, pages)
  {
    assert (pages + [p])[..|pages|] == pages;
  }

  lemma CountSavedSnoc(outs: seq<Outcome>, o: Outcome)
    ensures CountSaved(outs + [o]) == CountSaved(outs) + (if o.Saved? then 1 else 0)
  {
    assert (outs + [o])[..|outs|] == outs;
  }

  /** The page list of the outcome loop grows by the page of the next
      task. */
  lemma PagesExtend(tasks: seq<Task>, pages: seq<Page>, p: Page, opts: Options, parse: string -> seq<Node>, md5: string -> string)
    requires |pages| < |tasks|
    requires forall k :: 0 <= k < |pages| ==> TaskPage(tasks[k], opts, parse, md5) == Some(pages[k])
    requires TaskPage(tasks[|pages|], opts, parse, md5) == Some(p)
    ensures forall k :: 0 <= k <= |pages| ==> TaskPage(tasks[k], opts, parse, md5) == Some((pages + [p])[k])
  {
  }

  /** Pages matched to a prefix of the tasks are that prefix's pages. */
  lemma PagesOfPrefix(tasks: seq<Task>, pages: seq<Page>, opts: Options, parse: string -> seq<Node>, md5: string -> string)
    requires |pages| <= |tasks|
    requires forall k :: 0 <= k < |pages| ==> TaskPage(tasks[k], opts, parse, md5) == Some(pages[k])
    ensures PagesOf(tasks[..|pages|], opts, parse, md5) == pages
  {
  }

  /** Extraction and fingerprinting of one task: `process_content` on the
      parsed page, then `hash_content`. */
  method ExtractTask(t: Task, opts: Options, parse: string -> seq<Node>, md5: string -> string) returns (page: Option<Page>)
    ensures page == TaskPage(t, opts, parse, md5)
  {
    var cont := ProcessContent(Document(parse(t.html)), opts);
    if cont.Failure? {
      return None;
    }
    var hashVal := HashContent(cont.value, md5);
    return Some(Page(t.url, cont.value, hashVal));
  }
}
