# General web scraper — a Dafny model of its core

The scraper collects pages from one website and keeps the content of each
one as a list of blocks. It works in two modes. In single-URL mode it
fetches one page. In crawl mode it walks the site breadth-first from a seed
URL, up to a link depth and a page bound. From each page it extracts:

- the title;
- the headings of the selected levels;
- paragraphs, split into bold and plain runs;
- lists;
- spans, headers and footers, each when its option is on;
- the loose text of `div`s, but only when every option is off. `div` is
  never in the tag list, and only an empty tag list matches every element.

A classifier filters what is extracted. It drops everything below
boilerplate (`header`, `footer`, `nav`, `aside` subtrees), whatever markers
it carries. When spans are enabled, it keeps a span only if the span or an
ancestor below `body` carries a FAQ or accordion marker. When divs are off
and filtering is on, the nearest marked node decides for a `div` and for
everything inside one. A FAQ or accordion marker keeps the element. An
unwanted marker (a cookie banner, a share bar, an ad) drops it. A marker
farther up the chain does not matter. Each page gets a fingerprint, the MD5
of a canonical string of its blocks. A page whose fingerprint was seen
before is skipped as a duplicate. A page is saved only when it has more than
its title.

The model has these modules:

- `Wrappers`: `Option`, `Result` and the `Somes` flattening of a sequence of
  options.
- `Dom`: the parsed document as BeautifulSoup presents it. That is a tree of
  text nodes and elements, plus the library queries the extractor relies on:
  `.string`, `get_text`, `find`, `find_all`, `str.strip`, `str.lower`,
  substring search and `str.join`. `Document` builds the root that stands
  for the BeautifulSoup object itself: an element named `[document]`, with
  no class and no id, over the page's top-level nodes. The parser is a
  parameter that returns those top-level nodes.
- `Config`: the extraction options and the tag list built from them.
- `Classifier`: `is_main_content` and the nested `should_process_element`,
  with its two upward walks (the span walk and the div walk).
- `Extractor`: `process_content`, both as a specification function
  `Extract` and as the method `ProcessContent` proved equal to it.
- `Fingerprint`: `hash_content` and the canonical string it hashes.
- `Crawl`: single-URL mode and the crawl loop of the app.
- `Outcomes`: the per-task loop of the app. A `Session` holds the set of
  seen fingerprints and decides, for each task, whether it is a duplicate,
  saved or empty.
- `Scenarios`: concrete documents on which the classifier and the extractor
  are evaluated.

The outside world is passed in as function parameters:

- `fetch` is `fetch_page`, which gives the page text or nothing;
- `links` is `get_all_website_links`;
- `valid` is `is_valid_url`;
- `parse` is the HTML parser, giving the top-level nodes of the page;
- `md5` is the hex digest of the encoded string.

## Model

| member | source | states |
|---|---|---|
| Config.BuildTags | scraper.py:53-63 | the heading tags are exactly `h1`…`h6` for the enabled levels, in level order; the tag list is those followed by `p`, `ul`/`ol`, `header`, `footer`, `span`, each when its option is on |
| Config.HeadingTagsMembers | scraper.py:55-58 | a name is a heading tag iff it is `h<lvl>` for an enabled level between 1 and 6, and reading its second character gives that level back, whose name is the tag again |
| Config.SelectedTagsMembers | scraper.py:53-63 | a tag is searched for iff it is an enabled heading or its option is on; `div` is never in the tag list |
| Config.SelectedTagsEmpty | scraper.py:53-63 | the tag list is empty iff every heading level and every element option is off |
| Classifier.MainContentIgnoresOwnName | scraper.py:45-46 | the test does not look at the element's own name |
| Classifier.BoilerplateAncestorDrops | scraper.py:79-80 | an element below a boilerplate tag is dropped under every configuration, before any marker is read |
| Classifier.SpanLevel | scraper.py:85-92 | one level of the span walk reports a rescue iff the node's lower-cased class list or lower-cased id contains a special marker |
| Classifier.DivLevel | scraper.py:101-112 | one level of the div walk reports a hit iff the node carries a marker of either kind; on a hit the verdict is keep for a special class, drop for an unwanted class, keep for a special id, drop for an unwanted id, in that order |
| Classifier.FirstStop | scraper.py:84-113 | an upward walk ends at the first node below the nearest `body` that satisfies its stop test, or at `body` (or the root) when none does; every node passed fails the test |
| Classifier.FirstStopIsFirst | scraper.py:84-113 | a node that satisfies the stop test, with none before it failing to, is exactly where the walk ends |
| Classifier.SpanRescuedIff | scraper.py:82-94 | the span rule holds iff some node from the span up to, but not including, the nearest `body` carries a special marker |
| Classifier.UnmarkedChainKept | scraper.py:99-113 | when no node below `body` carries a marker, the div walk keeps the element |
| Classifier.SpanWalk | scraper.py:82-94 | a span is rescued iff some node from the span up to, but not including, the nearest `body` has a special marker in its class list or its id |
| Classifier.DivWalk | scraper.py:96-116 | the first node below `body` that carries a marker decides: a special class keeps, then an unwanted class drops, then a special id keeps, then an unwanted id drops; with no marker the element is kept |
| Classifier.ShouldProcessElement | scraper.py:78-118 | `keep` equals `Accepts`: boilerplate ancestors drop; a span is kept iff rescued when spans are on; with the div option off, a div or an element inside a div is dropped when `filter_divs` is false and otherwise gets the div walk's verdict; anything else is kept |
| Classifier.BodyIndex | scraper.py:84-100 | the walks look at exactly the nodes before the first `body` on the chain |
| Classifier.NearestHitDecides | scraper.py:99-114 | when node `k` is the first marked node below `body`, its own verdict is the div walk's verdict |
| Classifier.OwnMarkerDecides | scraper.py:96-114 | a marked element in the div scope is kept or dropped by its own markers, whatever its ancestors carry |
| Classifier.SpanParentMarkerKeeps | scraper.py:82-94 | with span extraction on, a main-content span whose parent below `body` has a special marker is kept, whatever the span carries |
| Classifier.SpanOwnMarkerKeeps | scraper.py:82-94 | with span extraction on, a main-content span with its own special marker is kept |
| Dom.ContainsOccurs | scraper.py:87 | Python's `m in s` on strings holds iff `m` occurs in `s` at some position |
| Extractor.TitleTextCases | scraper.py:50 | the title is the stripped `.string` of the first `title` element; it is `Başlıksız` when there is no `title`, or its `.string` is None or empty; a present, non-empty `.string` always gives its stripped value |
| Extractor.Select | scraper.py:120 | an element is found iff it lies under `body` and its tag is in the list (an empty list matches every tag) |
| Extractor.SelectAppend | scraper.py:120 | the matches keep document order: those in a concatenation are the matches of the first part, then those of the second |
| Extractor.RunsShape | scraper.py:129-138 | a paragraph has no runs iff no child yields one; a bold child always yields a run; every plain run has non-empty text |
| Extractor.RunsAppend | scraper.py:131-136 | the runs of concatenated children are the runs of each part, in order |
| Extractor.ItemsShape | scraper.py:139-153 | every list item kept has at least one run and no `a` element below it |
| Extractor.ElementBlockIsContent | scraper.py:124-169 | the block of one element, when there is one, is a heading of an enabled level with text, a paragraph with at least one run, a non-empty text paragraph, or a list whose items all have runs |
| Extractor.BlocksAppend | scraper.py:120-169 | the blocks of a concatenation of visits are the blocks of each part, in order |
| Extractor.BlocksAreContent | scraper.py:120-169 | every block extracted from the body comes from an accepted element and is a content block |
| Extractor.ExtractShape | scraper.py:48-171 | a successful extraction starts with exactly one title block, followed only by content blocks |
| Extractor.ExtractFailsWithoutBody | scraper.py:120 | extraction fails iff the document has no `body` element |
| Extractor.ScanSelectsOptionTags | scraper.py:53-120 | with a non-empty tag list, every scanned element carries a selected tag |
| Extractor.BlankTitleIsEmpty | scraper.py:50 | a title of whitespace only gives the empty title text, not the fallback |
| Extractor.CollectRuns | scraper.py:130-136 | the loop over a paragraph's children produces exactly `Runs` of them |
| Extractor.CollectItems | scraper.py:140-151 | the loop over a list's `li` children produces exactly `Items` of them |
| Extractor.ExtractElement | scraper.py:124-169 | the branch for one element produces exactly `ElementBlock` of it |
| Extractor.ProcessContent | scraper.py:48-171 | the result equals `Extract`: no body fails; otherwise the title block and then, in document order, the block of each accepted element |
| Fingerprint.HashContent | scraper.py:173-177 | the digest is `md5` of `Canonical`, the keys of the blocks in order |
| Fingerprint.CanonicalAppend | scraper.py:174-176 | the canonical string of a concatenation is the concatenation of the canonical strings |
| Fingerprint.KeyErase | scraper.py:176 | a block's key depends only on its kind, its level and its lower-cased text |
| Fingerprint.CanonicalIgnoresCaseAndRuns | scraper.py:174-176 | pages that agree block by block up to letter case, paragraph runs and list items share a fingerprint |
| Fingerprint.CanonicalAmbiguous | scraper.py:174-176 | two different pages (paragraphs `x`, `y` against one paragraph `x + "paragraph__" + y`) share a canonical string |
| Crawl.SingleUrlTasks | app.py:170-173 | single-URL mode gives one task, holding the fetched text, iff the page is usable, and none otherwise |
| Crawl.ReachMonotone | app.py:177-195 | the seed is always reachable, and a larger depth reaches a superset |
| Crawl.ReachValid | app.py:193-195 | every reachable URL other than the seed passed the validity check |
| Crawl.EnqueueLinks | app.py:191-195 | the new queue is the old queue followed by exactly the page's links that are unvisited and valid, in link order, each one level deeper; every entry stays within the depth bound and reachable within its level |
| Crawl.QueuedMembers | app.py:193-195 | a pair is queued from the links exactly when its link is among them, unvisited and valid, and its level is one deeper |
| Crawl.QueuedWithin | app.py:191-195 | appending the queued links of a usable page below the depth bound keeps every entry within the bound and reachable within its level |
| Crawl.VisitKeepsTasksMatch | app.py:184-189 | visiting a new URL, and appending its task exactly when its page is usable, keeps the tasks distinct, fetched and non-empty, and keeps one task per visited usable URL |
| Crawl.SkipVisited | app.py:180-182 | dropping a queued URL that is already visited keeps the queue in breadth-first layers and keeps every valid link of a visited usable page below the bound visited or queued |
| Crawl.VisitHead | app.py:180-195 | visiting the head of the queue at its level, and queueing its unvisited valid links one level deeper when its page is usable and below the bound, keeps the queue layered and keeps every such link visited at most one level deeper or queued |
| Crawl.ClosedCoversReach | app.py:179-195 | once the queue is empty, every URL within `d` hops of the seed was visited, at a level of at most `d` |
| Crawl.SkipKeeps | app.py:179-182 | the skip branch keeps the crawl's loop invariant |
| Crawl.VisitKeeps | app.py:184-195 | the visit branch keeps the crawl's loop invariant: bounds, task match, depth limit, layered queue and closure |
| Crawl.CrawlDone | app.py:179 | when the loop stops, the crawl's postconditions hold, including completeness when the page bound was not reached |
| Crawl.CrawlSite | app.py:177-199 | at most `maxp` URLs are visited; tasks have distinct URLs, each visited and usable; every visited usable page has a task; every visited URL is within `depth` hops of the seed and is the seed or valid; the seed's task comes first; and unless the page bound stopped the crawl, the visited URLs are exactly those within `depth` hops |
| Outcomes.Session.constructor | app.py:74 | a session starts with no seen fingerprints |
| Outcomes.Session.Record | app.py:218-228 | the outcome is decided against the seen set, the duplicate test first; only a saved page adds its fingerprint |
| Outcomes.ExtractTask | app.py:213-216 | a task's page is its parsed content's blocks and their fingerprint, or nothing when there is no body |
| Outcomes.Session.ProcessTasks | app.py:212-228 | tasks are processed in order until one has no body; the outcomes and the seen set are the replay of the processed pages; `succ` counts the saved pages and `succ + fail` the processed ones |
| Outcomes.ReplayAt | app.py:212-228 | the outcome of page `i` is decided against the fingerprints seen after the pages before it |
| Outcomes.SeenGrowth | app.py:218-225 | the seen set only grows, by exactly one fingerprint per saved page |
| Outcomes.SeenMembers | app.py:218-225 | a fingerprint is seen after a run iff it was seen before or belongs to a saved page |
| Outcomes.SavedPages | app.py:218-225 | a saved page has more than its title, a fingerprint not seen before the run, and a fingerprint different from every earlier saved page's |
| Outcomes.RepeatIsDuplicate | app.py:218-220 | once a page is saved, every later page with the same fingerprint is a duplicate |
| Outcomes.CaseVariantIsDuplicate | app.py:215-220 | a later page that differs from a saved one only in letter case, runs or list items is reported as a duplicate |
| Scenarios.CookieBannerUnwanted | scraper.py:65-70 | `cookie-banner` contains an unwanted marker |
| Scenarios.CookieBannerNotSpecial | scraper.py:72-76 | `cookie-banner` contains none of the special markers |
| Scenarios.AccordionInsideCookieBannerKept | scraper.py:96-157 | an accordion div inside a cookie-banner div is kept, because its own marker is the nearest one, and gives its text block |
| Scenarios.CookieBannerInsideAccordionDropped | scraper.py:96-116 | a cookie-banner div inside an accordion div is dropped |
| Scenarios.FaqSpanRescued | scraper.py:82-94 | a span with its own `faq-answer` class, three levels below a plain div, is kept whenever spans are on |
| Scenarios.PlainSpanUnderFaqDivRescued | scraper.py:82-94 | a span with no marker of its own, directly inside a `faq` div, is kept when spans are on: the walk finds the marker one level up |
| Scenarios.FaqInsideNavDropped | scraper.py:79-80 | a `faq` paragraph inside a `nav` is dropped under every configuration |
| Scenarios.PlainSpanDropped | scraper.py:82-94 | a span with no special marker on its way to `body` is dropped |
| Scenarios.ParagraphKept | scraper.py:78-118 | a plain paragraph directly under `body` is accepted with every option off |
| Scenarios.ParagraphBlock | scraper.py:129-138 | the paragraph `<p>x</p>` gives one plain run `x` |
| Scenarios.HelloWorldRuns | scraper.py:129-138 | `Hello <b>World</b>!` gives the runs `Hello`, bold `World`, `!` |
| Scenarios.AnchorItemDropped | scraper.py:139-153 | a list item that contains a link is dropped and a plain one is kept |
| Scenarios.AllOffStillExtractsParagraphs | scraper.py:53-138 | with every option off, a page's paragraph is still extracted after the title |

## Left out

- Fetching pages (`fetch_page`), collecting a page's links
  (`get_all_website_links`, which fetches the page a second time), URL
  validation (`is_valid_url`), MD5 and HTML parsing are parameters. The
  model says nothing about their internals.
- The link order from `get_all_website_links`: it returns a set, and its
  iteration order decides the queue order. The model takes the links as a
  sequence in any order.
- Crawl.CrawlSite: when the page bound stops the crawl, the contract does
  not say which `maxp` URLs were visited (the first ones in breadth-first
  order). Completeness is proved only for a crawl the bound did not stop.
- `str.lower` is modelled on ASCII letters only. Python lowers every Unicode
  letter. The main effect is on the fingerprint. `hash_content` lowers page
  text, and Python maps non-ASCII capitals such as `Ş`, `Ç` and `İ` to lower
  case, while the model keeps them. The classifier differs only for a class
  name or id with a non-ASCII capital, such as `SIKÇA-SORULAN`.
- Fingerprint.CanonicalIgnoresCaseAndRuns: holds for ASCII case only, for
  the reason above. Pages that differ in a non-ASCII capital share a
  fingerprint in the program but not in the model.
- Outcomes.CaseVariantIsDuplicate: built on the lemma above, so it covers
  ASCII case variants only. A later page that differs from a saved one in a
  non-ASCII capital is a duplicate in the program, but the model does not
  say so.
- `str.strip` and `get_text` are modelled over Python's whitespace set.
  Comments, `<script>` strings and other special string types of
  BeautifulSoup are not modelled; every string is a plain text node.
- The class list is modelled as the parsed list of class names. The
  parser's splitting of the attribute is not modelled.
- The Streamlit interface is left out: the sidebar, progress bars, status
  text, `time.sleep` and the results table. Also left out are the initial
  URL check before the mode is chosen and the re-execution of the script on
  every interaction, which resets the seen set at `app.py:74`.
- Writing the document (`create_document`, the save directory and file
  names) is not part of this model. A saved outcome carries only the page's
  URL. `document_processor.py` does not define `create_document`.
- Outcomes.Session.ProcessTasks: when a page has no `body`, `process_content`
  raises on `None.find_all`. The model stops the task loop there and reports
  `aborted`. It does not model the exception's route to the Streamlit error
  display.

Points where the code behaves in a way one might not expect; the model
follows the code:

- the fingerprint uses only the kind, level and text of each block; the runs
  of a paragraph and the items of a list do not reach it;
- a page that cannot be fetched is neither a task nor a failure;
- a page without a `body` ends processing instead of being skipped;
- a plain run comes from any child with a `.string`, not only from text
  nodes;
- with every option off, `p`, `ul`, `ol` and `div` elements are still
  extracted, because an empty tag list matches every element;
- an accordion div inside a cookie-banner div is kept, because the nearest
  marker decides;
- the fallback title is `Başlıksız`;
- duplicates are counted in `fail`.
