/**
 * Collecting the pages to process: the single-URL mode and the
 * breadth-first site crawl of the app, with a `visited` set, a FIFO queue
 * of (url, level) pairs and the depth and page bounds. Fetching a page,
 * extracting its links and validating a URL are parameters.
 */
module Crawl {
  import opened Wrappers

  /** A page to process: its URL and its HTML. */
  datatype Task = Task(url: string, html: string)

  /** `if html:` on the result of `fetch_page`: a page was fetched and its
      text is not empty. */
  predicate Usable(page: Option<string>) {
    page.Some? && page.value != ""
  }

  /** The links the crawl may queue from the pages in `r`: the valid links
      of every usable page. */
  function Successors(r: set<string>, fetch: string -> Option<string>,
                      links: string -> seq<string>, valid: string -> bool): set<string>
  {
    set u, l | u in r && l in links(u) && Usable(fetch(u)) && valid(l) :: l
  }

  /** The URLs within `d` hops of the seed, where a hop follows a valid link
      out of a usable page. */
  function Reach(seed: string, d: nat, fetch: string -> Option<string>,
                 links: string -> seq<string>, valid: string -> bool): set<string>
    decreases d
  {
    if d == 0 then {seed}
    else
      var r := Reach(seed, d - 1, fetch, links, valid);
      r + Successors(r, fetch, links, valid)
  }

  /** The seed is reachable at every depth, and a deeper bound reaches
      at least as far. */
  lemma {:induction false} ReachMonotone(seed: string, d1: nat, d2: nat, fetch: string -> Option<string>,
                                         links: string -> seq<string>, valid: string -> bool)
    requires d1 <= d2
    ensures seed in Reach(seed, d2, fetch, links, valid)
    ensures Reach(seed, d1, fetch, links, valid) <= Reach(seed, d2, fetch, links, valid)
    decreases d2
  {
    if d2 > 0 {
      var r := Reach(seed, d2 - 1, fetch, links, valid);
      ReachMonotone(seed, if d1 < d2 then d1 else 0, d2 - 1, fetch, links, valid);
      if d1 < d2 {
        forall u | u in Reach(seed, d1, fetch, links, valid) ensures u in Reach(seed, d2, fetch, links, valid) {
          assert u in r;
        }
      }
    }
  }

  /** Every reachable URL other than the seed passed `is_valid_url`. */
  lemma {:induction false} ReachValid(seed: string, d: nat, fetch: string -> Option<string>,
                                      links: string -> seq<string>, valid: string -> bool, u: string)
    requires u in Reach(seed, d, fetch, links, valid)
    ensures u == seed || valid(u)
    decreases d
  {
    if d > 0 && u in Reach(seed, d - 1, fetch, links, valid) {
      ReachValid(seed, d - 1, fetch, links, valid, u);
    }
  }

  /** The single-URL mode: one task when the page is usable, none
      otherwise. */
  function SingleUrlTasks(url: string, fetch: string -> Option<string>): (tasks: seq<Task>)
    ensures |tasks| <= 1
    ensures tasks != [] <==> Usable(fetch(url))
    ensures forall t :: t in tasks ==> t.url == url && fetch(url) == Some(t.html) && t.html != ""
  {
    var html := fetch(url);
    if html.Some? && html.value != "" then [Task(url, html.value)] else []
  }

  /** Every queued pair has a level within the depth bound and a URL
      reachable in that many hops. */
  predicate QueueWithin(toVisit: seq<(string, nat)>, seed: string, depth: nat, fetch: string -> Option<string>,
                        links: string -> seq<string>, valid: string -> bool)
  {
    forall k :: 0 <= k < |toVisit| ==>
      toVisit[k].1 <= depth && toVisit[k].0 in Reach(seed, toVisit[k].1, fetch, links, valid)
  }

  /** The pairs the inner loop appends for the links `ls`: each link that
      is not yet visited and is valid, in order, at level `lvl`. */
  function Queued(ls: seq<string>, visited: set<string>, valid: string -> bool, lvl: nat): seq<(string, nat)>
    decreases |ls|
  {
    if ls == [] then []
    else
      var l := ls[|ls| - 1];
      Queued(ls[..|ls| - 1], visited, valid, lvl) + (if l !in visited && valid(l) then [(l, lvl)] else [])
  }

  /** A pair is queued exactly when its link is among `ls`, unvisited and
      valid, and its level is `lvl`. */
  lemma {:induction false} QueuedMembers(ls: seq<string>, visited: set<string>, valid: string -> bool, lvl: nat, p: (string, nat))
    ensures p in Queued(ls, visited, valid, lvl) <==> p.0 in ls && p.0 !in visited && valid(p.0) && p.1 == lvl
    decreases |ls|
  {
    if ls != [] {
      var init := ls[..|ls| - 1];
      QueuedMembers(init, visited, valid, lvl, p);
      assert ls == init + [ls[|ls| - 1]];
    }
  }

  /** A valid link of a usable page reachable in `d` hops is reachable in
      `d + 1`. */
  lemma LinkReached(seed: string, d: nat, fetch: string -> Option<string>,
                    links: string -> seq<string>, valid: string -> bool, url: string, l: string)
    requires url in Reach(seed, d, fetch, links, valid) && Usable(fetch(url))
    requires l in links(url) && valid(l)
    ensures l in Reach(seed, d + 1, fetch, links, valid)
  {
    assert l in Successors(Reach(seed, d, fetch, links, valid), fetch, links, valid);
  }

  /** Each queued pair is an unvisited valid link of `ls` at level `lvl`. */
  lemma QueuedEntry(ls: seq<string>, visited: set<string>, valid: string -> bool, lvl: nat, k: nat)
    requires k < |Queued(ls, visited, valid, lvl)|
    ensures var p := Queued(ls, visited, valid, lvl)[k];
      p.1 == lvl && p.0 in ls && p.0 !in visited && valid(p.0)
  {
    QueuedMembers(ls, visited, valid, lvl, Queued(ls, visited, valid, lvl)[k]);
  }

  /** Appending the queued links of a usable page at a level below the
      bound keeps every pair within the bound, and each appended pair is an
      unvisited valid link one level deeper. */
  lemma QueuedWithin(toVisit: seq<(string, nat)>, ls: seq<string>, visited: set<string>, level: nat,
                     seed: string, depth: nat, fetch: string -> Option<string>,
                     links: string -> seq<string>, valid: string -> bool, url: string)
    requires level < depth && ls == links(url) && Usable(fetch(url))
    requires url in Reach(seed, level, fetch, links, valid)
    requires QueueWithin(toVisit, seed, depth, fetch, links, valid)
    ensures var queue := toVisit + Queued(ls, visited, valid, level + 1);
      && QueueWithin(queue, seed, depth, fetch, links, valid)
      && |queue| >= |toVisit| && queue[..|toVisit|] == toVisit
      && forall k :: |toVisit| <= k < |queue| ==>
           queue[k].1 == level + 1 && queue[k].0 in ls && queue[k].0 !in visited && valid(queue[k].0)
  {
    var added := Queued(ls, visited, valid, level + 1);
    var queue := toVisit + added;
    forall k | 0 <= k < |queue|
      ensures queue[k].1 <= depth && queue[k].0 in Reach(seed, queue[k].1, fetch, links, valid)
    {
      if k < |toVisit| {
        assert queue[k] == toVisit[k];
      } else {
        assert queue[k] == added[k - |toVisit|];
        QueuedEntry(ls, visited, valid, level + 1, k - |toVisit|);
        LinkReached(seed, level, fetch, links, valid, url, queue[k].0);
      }
    }
    forall k | |toVisit| <= k < |queue|
      ensures queue[k].1 == level + 1 && queue[k].0 in ls && queue[k].0 !in visited && valid(queue[k].0)
    {
      assert queue[k] == added[k - |toVisit|];
      QueuedEntry(ls, visited, valid, level + 1, k - |toVisit|);
    }
    assert queue[..|toVisit|] == toVisit;
  }

  /** The inner loop of the crawl: queue each link of `url` that is not yet
      visited and is valid, one level below `level`. */
  method EnqueueLinks(toVisit: seq<(string, nat)>, newLinks: seq<string>, visited: set<string>, level: nat,
                      ghost seed: string, ghost depth: nat, ghost fetch: string -> Option<string>,
                      ghost links: string -> seq<string>, valid: string -> bool, ghost url: string)
    returns (queue: seq<(string, nat)>)
    requires level < depth && newLinks == links(url) && Usable(fetch(url))
    requires url in Reach(seed, level, fetch, links, valid)
    requires QueueWithin(toVisit, seed, depth, fetch, links, valid)
    ensures QueueWithin(queue, seed, depth, fetch, links, valid)
    ensures |queue| >= |toVisit| && queue[..|toVisit|] == toVisit
    ensures forall k :: |toVisit| <= k < |queue| ==>
      queue[k].1 == level + 1 && queue[k].0 in newLinks && queue[k].0 !in visited && valid(queue[k].0)
    ensures queue == toVisit + Queued(newLinks, visited, valid, level + 1)
  {
    queue := toVisit;
    for j := 0 to |newLinks|
      invariant queue == toVisit + Queued(newLinks[..j], visited, valid, level + 1)
    {
      assert newLinks[..j + 1][..j] == newLinks[..j];
      var link := newLinks[j];
      if link !in visited && valid(link) {
        queue := queue + [(link, level + 1)];
      }
    }
    assert newLinks[..|newLinks|] == newLinks;
    QueuedWithin(toVisit, newLinks, visited, level, seed, depth, fetch, links, valid, url);
  }

  /** The tasks collected so far match the visited URLs: one task per
      visited usable page, carrying the page's text, and no URL twice. */
  predicate TasksMatch(tasks: seq<Task>, visited: set<string>, fetch: string -> Option<string>) {
    && (forall i, j :: 0 <= i < j < |tasks| ==> tasks[i].url != tasks[j].url)
    && (forall t :: t in tasks ==> t.url in visited && fetch(t.url) == Some(t.html) && t.html != "")
    && (forall u :: u in visited && Usable(fetch(u)) ==> exists t :: t in tasks && t.url == u)
  }

  /** Visiting a new URL and appending its task when its page is usable
      keeps the tasks matched to the visited URLs. */
  lemma VisitKeepsTasksMatch(tasks: seq<Task>, visited: set<string>, fetch: string -> Option<string>, url: string)
    requires TasksMatch(tasks, visited, fetch) && url !in visited
    ensures Usable(fetch(url)) ==> TasksMatch(tasks + [Task(url, fetch(url).value)], visited + {url}, fetch)
    ensures !Usable(fetch(url)) ==> TasksMatch(tasks, visited + {url}, fetch)
  {
    if Usable(fetch(url)) {
      var ts := tasks + [Task(url, fetch(url).value)];
      assert ts[|tasks|].url == url;
      forall t | t in ts ensures t in tasks || t == Task(url, fetch(url).value) {
      }
    }
  }

  /** Breadth-first order of the queue against the levels at which URLs
      were visited: the queue holds `m` pairs at level `lo` followed by
      pairs at level `lo + 1`, and no visited URL has a level above `lo`. */
  ghost predicate Layered(levels: map<string, nat>, q: seq<(string, nat)>, lo: nat, m: nat) {
    && m <= |q|
    && (forall k :: 0 <= k < |q| ==> q[k].1 == if k < m then lo else lo + 1)
    && (forall u :: u in levels ==> levels[u] <= lo)
  }

  /** Every valid link of a usable page visited below the depth bound is
      visited at most one level deeper, or still queued one level deeper. */
  ghost predicate Closed(levels: map<string, nat>, q: seq<(string, nat)>, depth: nat,
                         fetch: string -> Option<string>, links: string -> seq<string>, valid: string -> bool)
  {
    forall u, l :: u in levels && levels[u] < depth && Usable(fetch(u)) && l in links(u) && valid(l) ==>
      (l in levels && levels[l] <= levels[u] + 1) || (l, levels[u] + 1) in q
  }

  /** Once the pairs at level `lo` are used up, the queue is layered from
      the next level. */
  lemma NextLayer(levels: map<string, nat>, q: seq<(string, nat)>, lo: nat)
    requires Layered(levels, q, lo, 0)
    ensures Layered(levels, q, lo + 1, |q|)
  {
  }

  /** Dropping a queued URL that was already visited keeps the queue
      layered and closed. */
  lemma SkipVisited(levels: map<string, nat>, q: seq<(string, nat)>, lo: nat, m: nat, depth: nat,
                    fetch: string -> Option<string>, links: string -> seq<string>, valid: string -> bool)
    requires q != [] && q[0].0 in levels && m > 0
    requires Layered(levels, q, lo, m) && Closed(levels, q, depth, fetch, links, valid)
    ensures Layered(levels, q[1..], lo, m - 1) && Closed(levels, q[1..], depth, fetch, links, valid)
  {
    forall u, l | u in levels && levels[u] < depth && Usable(fetch(u)) && l in links(u) && valid(l)
      ensures (l in levels && levels[l] <= levels[u] + 1) || (l, levels[u] + 1) in q[1..]
    {
      if (l, levels[u] + 1) in q && (l, levels[u] + 1) !in q[1..] {
        assert q == [q[0]] + q[1..];
      }
    }
  }

  /** Visiting the URL at the head of the queue at its level, and appending
      its queued links when its page is usable and below the bound, keeps
      the queue layered and closed. */
  lemma VisitHead(levels: map<string, nat>, q: seq<(string, nat)>, lo: nat, m: nat, depth: nat,
                  fetch: string -> Option<string>, links: string -> seq<string>, valid: string -> bool,
                  added: seq<(string, nat)>)
    requires q != [] && q[0].0 !in levels && m > 0
    requires Layered(levels, q, lo, m) && Closed(levels, q, depth, fetch, links, valid)
    requires added == if Usable(fetch(q[0].0)) && lo < depth
                      then Queued(links(q[0].0), levels.Keys + {q[0].0}, valid, lo + 1) else []
    ensures Layered(levels[q[0].0 := lo], q[1..] + added, lo, m - 1)
    ensures Closed(levels[q[0].0 := lo], q[1..] + added, depth, fetch, links, valid)
  {
    var url := q[0].0;
    var levels', q' := levels[url := lo], q[1..] + added;
    forall k | 0 <= k < |q'| ensures q'[k].1 == if k < m - 1 then lo else lo + 1 {
      if k < |q| - 1 {
        assert q'[k] == q[k + 1];
      } else {
        QueuedMembers(links(url), levels.Keys + {url}, valid, lo + 1, added[k - (|q| - 1)]);
      }
    }
    ClosedAfterVisit(levels, q, lo, depth, fetch, links, valid, added);
  }

  /** The closure half of `VisitHead`. */
  lemma ClosedAfterVisit(levels: map<string, nat>, q: seq<(string, nat)>, lo: nat, depth: nat,
                         fetch: string -> Option<string>, links: string -> seq<string>, valid: string -> bool,
                         added: seq<(string, nat)>)
    requires q != [] && q[0].0 !in levels && q[0].1 == lo
    requires forall u :: u in levels ==> levels[u] <= lo
    requires Closed(levels, q, depth, fetch, links, valid)
    requires added == if Usable(fetch(q[0].0)) && lo < depth
                      then Queued(links(q[0].0), levels.Keys + {q[0].0}, valid, lo + 1) else []
    ensures Closed(levels[q[0].0 := lo], q[1..] + added, depth, fetch, links, valid)
  {
    var url := q[0].0;
    var levels', q' := levels[url := lo], q[1..] + added;
    forall u, l | u in levels' && levels'[u] < depth && Usable(fetch(u)) && l in links(u) && valid(l)
      ensures (l in levels' && levels'[l] <= levels'[u] + 1) || (l, levels'[u] + 1) in q'
    {
      if u == url {
        if l !in levels' {
          QueuedMembers(links(url), levels.Keys + {url}, valid, lo + 1, (l, lo + 1));
          assert (l, lo + 1) == q'[|q| - 1 + IndexOf(added, (l, lo + 1))];
        }
      } else if !(l in levels' && levels'[l] <= levels'[u] + 1) {
        // the head itself is excluded: it is now visited at its own level
        var k := IndexOf(q, (l, levels[u] + 1));
        if k > 0 {
          assert q'[k - 1] == q[k];
        }
      }
    }
  }

  /** The position of an element of a sequence. */
  function IndexOf<T(==)>(s: seq<T>, x: T): (k: nat)
    requires x in s
    ensures k < |s| && s[k] == x
  {
    if s[0] == x then 0 else 1 + IndexOf(s[1..], x)
  }

  /** Once the queue is empty, a closed crawl that visited the seed at
      level 0 has visited everything within `d` hops, each at level at most
      `d`. */
  lemma {:induction false} ClosedCoversReach(seed: string, d: nat, levels: map<string, nat>, depth: nat,
                                             fetch: string -> Option<string>, links: string -> seq<string>,
                                             valid: string -> bool)
    requires d <= depth && seed in levels && levels[seed] == 0
    requires Closed(levels, [], depth, fetch, links, valid)
    ensures forall u :: u in Reach(seed, d, fetch, links, valid) ==> u in levels && levels[u] <= d
    decreases d
  {
    if d > 0 {
      var r := Reach(seed, d - 1, fetch, links, valid);
      ClosedCoversReach(seed, d - 1, levels, depth, fetch, links, valid);
      forall u | u in Successors(r, fetch, links, valid) ensures u in levels && levels[u] <= d {
        var w :| w in r && u in links(w) && Usable(fetch(w)) && valid(u);
        assert levels[w] < depth;
      }
    }
  }

  /** The state of the crawl loop between iterations. `levels` records the
      level at which each visited URL was visited, and `lo`, `m` describe
      the queue's layers (see `Layered`). */
  ghost predicate CrawlInv(tasks: seq<Task>, visited: set<string>, toVisit: seq<(string, nat)>,
                           levels: map<string, nat>, lo: nat, m: nat,
                           seed: string, depth: nat, maxp: nat, fetch: string -> Option<string>,
                           links: string -> seq<string>, valid: string -> bool)
  {
    && |tasks| <= |visited| <= maxp
    && TasksMatch(tasks, visited, fetch)
    && visited <= Reach(seed, depth, fetch, links, valid)
    && QueueWithin(toVisit, seed, depth, fetch, links, valid)
    && (visited == {} ==> toVisit == [(seed, 0)] && tasks == [])
    && (visited != {} ==> seed in visited)
    && levels.Keys == visited && (visited != {} ==> levels[seed] == 0)
    && Layered(levels, toVisit, lo, m) && (toVisit != [] ==> m > 0)
    && Closed(levels, toVisit, depth, fetch, links, valid)
    && (visited != {} && Usable(fetch(seed)) ==> tasks != [] && tasks[0] == Task(seed, fetch(seed).value))
  }

  /** The state before the first iteration. */
  lemma CrawlStart(seed: string, depth: nat, maxp: nat, fetch: string -> Option<string>,
                   links: string -> seq<string>, valid: string -> bool)
    ensures CrawlInv([], {}, [(seed, 0)], map[], 0, 1, seed, depth, maxp, fetch, links, valid)
  {
    ReachMonotone(seed, 0, depth, fetch, links, valid);
  }

  /** The layer bounds after the head of the queue is taken: when it was
      the last pair at level `lo`, the next level begins. */
  function NextLo(lo: nat, m: nat): nat {
    if m <= 1 then lo + 1 else lo
  }

  function NextM(m: nat, rest: seq<(string, nat)>): nat {
    if m <= 1 then |rest| else m - 1
  }

  /** What the crawl knows of the head of a queue whose first layer is not
      empty: its level is `lo`, within the bound, and its URL is reachable
      in that many hops. */
  lemma HeadFacts(toVisit: seq<(string, nat)>, levels: map<string, nat>, lo: nat, m: nat,
                  seed: string, depth: nat, fetch: string -> Option<string>,
                  links: string -> seq<string>, valid: string -> bool)
    requires QueueWithin(toVisit, seed, depth, fetch, links, valid) && Layered(levels, toVisit, lo, m)
    requires toVisit != [] && m > 0
    ensures toVisit[0].1 == lo <= depth
    ensures toVisit[0].0 in Reach(seed, lo, fetch, links, valid)
    ensures QueueWithin(toVisit[1..], seed, depth, fetch, links, valid)
  {
    forall k | 0 <= k < |toVisit| - 1
      ensures toVisit[1..][k].1 <= depth && toVisit[1..][k].0 in Reach(seed, toVisit[1..][k].1, fetch, links, valid)
    {
      assert toVisit[1..][k] == toVisit[k + 1];
    }
  }

  /** Dropping a queued URL that was already visited keeps the state. */
  lemma SkipKeeps(tasks: seq<Task>, visited: set<string>, toVisit: seq<(string, nat)>,
                  levels: map<string, nat>, lo: nat, m: nat,
                  seed: string, depth: nat, maxp: nat, fetch: string -> Option<string>,
                  links: string -> seq<string>, valid: string -> bool)
    requires CrawlInv(tasks, visited, toVisit, levels, lo, m, seed, depth, maxp, fetch, links, valid)
    requires toVisit != [] && toVisit[0].0 in visited
    ensures CrawlInv(tasks, visited, toVisit[1..], levels, NextLo(lo, m), NextM(m, toVisit[1..]),
                     seed, depth, maxp, fetch, links, valid)
  {
    HeadFacts(toVisit, levels, lo, m, seed, depth, fetch, links, valid);
    SkipVisited(levels, toVisit, lo, m, depth, fetch, links, valid);
    if m == 1 {
      NextLayer(levels, toVisit[1..], lo);
    }
  }

  /** The queue half of a visit: the pairs stay within the bounds, and the
      queue stays layered and closed against the levels. */
  lemma VisitKeepsQueue(visited: set<string>, toVisit: seq<(string, nat)>,
                        levels: map<string, nat>, lo: nat, m: nat,
                        seed: string, depth: nat, fetch: string -> Option<string>,
                        links: string -> seq<string>, valid: string -> bool, toVisit': seq<(string, nat)>)
    requires QueueWithin(toVisit, seed, depth, fetch, links, valid) && levels.Keys == visited
    requires Layered(levels, toVisit, lo, m) && Closed(levels, toVisit, depth, fetch, links, valid)
    requires toVisit != [] && m > 0 && toVisit[0].0 !in visited
    requires toVisit' == toVisit[1..] + if Usable(fetch(toVisit[0].0)) && lo < depth
                                       then Queued(links(toVisit[0].0), visited + {toVisit[0].0}, valid, lo + 1) else []
    ensures QueueWithin(toVisit', seed, depth, fetch, links, valid)
    ensures Layered(levels[toVisit[0].0 := lo], toVisit', NextLo(lo, m), NextM(m, toVisit'))
    ensures toVisit' != [] ==> NextM(m, toVisit') > 0
    ensures Closed(levels[toVisit[0].0 := lo], toVisit', depth, fetch, links, valid)
  {
    var url := toVisit[0].0;
    HeadFacts(toVisit, levels, lo, m, seed, depth, fetch, links, valid);
    if Usable(fetch(url)) && lo < depth {
      QueuedWithin(toVisit[1..], links(url), visited + {url}, lo, seed, depth, fetch, links, valid, url);
      VisitHead(levels, toVisit, lo, m, depth, fetch, links, valid,
                Queued(links(url), visited + {url}, valid, lo + 1));
    } else {
      assert toVisit' == toVisit[1..];
      VisitHead(levels, toVisit, lo, m, depth, fetch, links, valid, []);
    }
    if m == 1 {
      NextLayer(levels[url := lo], toVisit', lo);
    }
  }

  /** The tasks half of a visit: the bounds, the match between tasks and
      visited URLs, and the seed's task first. */
  lemma VisitKeepsTasks(tasks: seq<Task>, visited: set<string>, url: string, lvl: nat,
                        seed: string, depth: nat, maxp: nat, fetch: string -> Option<string>,
                        links: string -> seq<string>, valid: string -> bool, tasks': seq<Task>)
    requires TasksMatch(tasks, visited, fetch) && |tasks| <= |visited| < maxp
    requires visited <= Reach(seed, depth, fetch, links, valid)
    requires url !in visited && lvl <= depth && url in Reach(seed, lvl, fetch, links, valid)
    requires visited == {} ==> url == seed && tasks == []
    requires visited != {} ==> seed in visited
    requires visited != {} && Usable(fetch(seed)) ==> tasks != [] && tasks[0] == Task(seed, fetch(seed).value)
    requires tasks' == if Usable(fetch(url)) then tasks + [Task(url, fetch(url).value)] else tasks
    ensures |tasks'| <= |visited + {url}| <= maxp
    ensures TasksMatch(tasks', visited + {url}, fetch)
    ensures visited + {url} <= Reach(seed, depth, fetch, links, valid)
    ensures seed in visited + {url}
    ensures Usable(fetch(seed)) ==> tasks' != [] && tasks'[0] == Task(seed, fetch(seed).value)
  {
    ReachMonotone(seed, lvl, depth, fetch, links, valid);
    VisitKeepsTasksMatch(tasks, visited, fetch, url);
    assert tasks != [] ==> tasks'[0] == tasks[0];
  }

  /** Visiting the URL at the head of the queue, appending its task when its
      page is usable and queueing its links when also below the depth
      bound, keeps the state. */
  lemma VisitKeeps(tasks: seq<Task>, visited: set<string>, toVisit: seq<(string, nat)>,
                   levels: map<string, nat>, lo: nat, m: nat,
                   seed: string, depth: nat, maxp: nat, fetch: string -> Option<string>,
                   links: string -> seq<string>, valid: string -> bool,
                   tasks': seq<Task>, toVisit': seq<(string, nat)>)
    requires CrawlInv(tasks, visited, toVisit, levels, lo, m, seed, depth, maxp, fetch, links, valid)
    requires toVisit != [] && toVisit[0].0 !in visited && |visited| < maxp
    requires tasks' == if Usable(fetch(toVisit[0].0)) then tasks + [Task(toVisit[0].0, fetch(toVisit[0].0).value)] else tasks
    requires toVisit' == toVisit[1..] + if Usable(fetch(toVisit[0].0)) && lo < depth
                                       then Queued(links(toVisit[0].0), visited + {toVisit[0].0}, valid, lo + 1) else []
    ensures CrawlInv(tasks', visited + {toVisit[0].0}, toVisit', levels[toVisit[0].0 := lo],
                     NextLo(lo, m), NextM(m, toVisit'), seed, depth, maxp, fetch, links, valid)
  {
    var url := toVisit[0].0;
    HeadFacts(toVisit, levels, lo, m, seed, depth, fetch, links, valid);
    VisitKeepsQueue(visited, toVisit, levels, lo, m, seed, depth, fetch, links, valid, toVisit');
    VisitKeepsTasks(tasks, visited, url, lo, seed, depth, maxp, fetch, links, valid, tasks');
  }

  /** What holds when the loop stops: the queue is used up or the page bound
      is reached. */
  lemma CrawlDone(tasks: seq<Task>, visited: set<string>, toVisit: seq<(string, nat)>,
                  levels: map<string, nat>, lo: nat, m: nat,
                  seed: string, depth: nat, maxp: nat, fetch: string -> Option<string>,
                  links: string -> seq<string>, valid: string -> bool)
    requires CrawlInv(tasks, visited, toVisit, levels, lo, m, seed, depth, maxp, fetch, links, valid)
    requires toVisit == [] || |visited| >= maxp
    ensures |tasks| <= |visited| <= maxp
    ensures forall i, j :: 0 <= i < j < |tasks| ==> tasks[i].url != tasks[j].url
    ensures forall t :: t in tasks ==> t.url in visited && fetch(t.url) == Some(t.html) && t.html != ""
    ensures forall u :: u in visited && Usable(fetch(u)) ==> exists t :: t in tasks && t.url == u
    ensures visited <= Reach(seed, depth, fetch, links, valid)
    ensures forall u :: u in visited ==> u == seed || valid(u)
    ensures |visited| < maxp ==> visited == Reach(seed, depth, fetch, links, valid)
    ensures maxp > 0 ==> seed in visited
    ensures maxp > 0 && Usable(fetch(seed)) ==> tasks != [] && tasks[0] == Task(seed, fetch(seed).value)
  {
    forall u | u in visited ensures u == seed || valid(u) {
      ReachValid(seed, depth, fetch, links, valid, u);
    }
    if |visited| < maxp {
      ClosedCoversReach(seed, depth, levels, depth, fetch, links, valid);
    }
  }

  /** The site crawl. Pages are visited in FIFO order from the seed at
      level 0; a page's links are queued one level deeper when its level is
      below `depth`, each link that is not yet visited and is valid. */
  method CrawlSite(seed: string, depth: nat, maxp: nat, fetch: string -> Option<string>,
                   links: string -> seq<string>, valid: string -> bool)
    returns (tasks: seq<Task>, visited: set<string>)
    // page bound
    ensures |tasks| <= |visited| <= maxp
    // no revisits: each visited URL gives at most one task, and every
    // visited usable page gives one
    ensures forall i, j :: 0 <= i < j < |tasks| ==> tasks[i].url != tasks[j].url
    ensures forall t :: t in tasks ==> t.url in visited && fetch(t.url) == Some(t.html) && t.html != ""
    ensures forall u :: u in visited && Usable(fetch(u)) ==> exists t :: t in tasks && t.url == u
    // depth bound
    ensures visited <= Reach(seed, depth, fetch, links, valid)
    ensures forall u :: u in visited ==> u == seed || valid(u)
    // completeness: unless the page bound stopped it, the crawl visits
    // every URL within the depth bound
    ensures |visited| < maxp ==> visited == Reach(seed, depth, fetch, links, valid)
    // the seed comes first
    ensures maxp > 0 ==> seed in visited
    ensures maxp > 0 && Usable(fetch(seed)) ==> tasks != [] && tasks[0] == Task(seed, fetch(seed).value)
  {
    tasks, visited := [], {};
    var toVisit: seq<(string, nat)> := [(seed, 0)];
    ghost var levels: map<string, nat> := map[];
    ghost var lo: nat, m: nat := 0, 1;
    CrawlStart(seed, depth, maxp, fetch, links, valid);
    while toVisit != [] && |visited| < maxp
      invariant CrawlInv(tasks, visited, toVisit, levels, lo, m, seed, depth, maxp, fetch, links, valid)
      decreases maxp - |visited|, |toVisit|
    {
      HeadFacts(toVisit, levels, lo, m, seed, depth, fetch, links, valid);
      var currentUrl, level := toVisit[0].0, toVisit[0].1;
      ghost var tasks0, visited0, toVisit0 := tasks, visited, toVisit;
      toVisit := toVisit[1..];
      // the depth half of the skip test never holds: queued levels stay within the bound
      if currentUrl in visited || level > depth {
        SkipKeeps(tasks, visited, toVisit0, levels, lo, m, seed, depth, maxp, fetch, links, valid);
        lo, m := NextLo(lo, m), NextM(m, toVisit);
        continue;
      }
      visited := visited + {currentUrl};
      var html := fetch(currentUrl);
      if html.Some? && html.value != "" {
        tasks := tasks + [Task(currentUrl, html.value)];
        if level < depth {
          toVisit := EnqueueLinks(toVisit, links(currentUrl), visited, level, seed, depth, fetch, links, valid, currentUrl);
        }
      }
      VisitKeeps(tasks0, visited0, toVisit0, levels, lo, m, seed, depth, maxp, fetch, links, valid, tasks, toVisit);
      levels, lo, m := levels[currentUrl := level], NextLo(lo, m), NextM(m, toVisit);
    }
    CrawlDone(tasks, visited, toVisit, levels, lo, m, seed, depth, maxp, fetch, links, valid);
  }
}
