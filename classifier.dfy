/**
 * The element classifier of the scraper: `is_main_content` and the
 * `should_process_element` closure of `process_content`, which decide
 * whether one scanned element counts as main content.
 */
module Classifier {
  import opened Dom
  import opened Config

  /** Class and id markers of boilerplate containers. */
  const Unwanted: seq<string> := [
    "dropdown", "menu", "navigation", "nav", "sidebar", "footer", "header",
    "popup", "modal", "cookie", "banner", "alert", "notification",
    "advertisement", "ad", "widget", "social", "share", "search",
    "login", "cart", "newsletter", "subscribe"
  ]

  /** Class and id markers of FAQ and accordion widgets, which rescue an
      element. */
  const Special: seq<string> := [
    "accordion", "faq", "soru", "cevap", "question", "answer",
    "sss", "sıkça-sorulan", "sikca-sorulan", "collapsible",
    "toggle", "expand", "vss", "vs-soru", "faq-item"
  ]

  /** Tags whose whole subtree is boilerplate. */
  const Boilerplate: set<string> := {"header", "footer", "nav", "aside"}

  /** `any(m in s for m in markers)`. */
  predicate AnyOf(s: string, markers: seq<string>) {
    exists m :: m in markers && Contains(s, m)
  }

  /** The node has a class list and its lower-cased, space-joined form
      contains one of the markers. */
  predicate ClassHas(n: Node, markers: seq<string>) {
    ClassesOf(n) != [] && AnyOf(Lower(Join(" ", ClassesOf(n))), markers)
  }

  /** The node has an id and its lower-cased form contains one of the
      markers. */
  predicate IdHas(n: Node, markers: seq<string>) {
    IdOf(n) != "" && AnyOf(Lower(IdOf(n)), markers)
  }

  /** `is_main_content`: no strict ancestor is a boilerplate tag; the
      element's own name is not looked at. */
  predicate IsMainContent(v: Visit) {
    forall a :: a in v.ancestors ==> NameOf(a) !in Boilerplate
  }

  /** Some strict ancestor is a `div`. */
  predicate HasDivAncestor(v: Visit) {
    exists a :: a in v.ancestors && NameOf(a) == "div"
  }

  /** The index of the first `body` on a chain, or its length: the upward
      walks look at the chain's nodes before this index. */
  function BodyIndex(c: seq<Node>): (b: nat)
    ensures b <= |c|
    ensures forall j :: 0 <= j < b ==> NameOf(c[j]) != "body"
    ensures b < |c| ==> NameOf(c[b]) == "body"
    decreases |c|
  {
    if c == [] then 0
    else if NameOf(c[0]) == "body" then 0
    else 1 + BodyIndex(c[1..])
  }

  /** A node that carries a special marker in its class list or its id. */
  predicate Rescues(n: Node) {
    ClassHas(n, Special) || IdHas(n, Special)
  }

  /** The position of the first node at or above position `i` and below
      the nearest `body` that satisfies `stop`, or `BodyIndex(c)` when
      there is none: where an upward walk that stops on `stop` ends. */
  function FirstStop(c: seq<Node>, i: nat, stop: Node -> bool): (k: nat)
    requires i <= BodyIndex(c)
    ensures i <= k <= BodyIndex(c)
    ensures forall j :: i <= j < k ==> !stop(c[j])
    ensures k < BodyIndex(c) ==> stop(c[k])
    decreases |c| - i
  {
    if i == BodyIndex(c) || stop(c[i]) then i else FirstStop(c, i + 1, stop)
  }

  /** The span rule on an upward chain: the walk meets a node with a
      special marker before the nearest `body`. */
  predicate SpanRescuedOn(c: seq<Node>) {
    FirstStop(c, 0, Rescues) < BodyIndex(c)
  }

  /** A node on which the div walk stops: a class or id marker of either
      kind. */
  predicate Hit(n: Node) {
    ClassHas(n, Special) || ClassHas(n, Unwanted) || IdHas(n, Special) || IdHas(n, Unwanted)
  }

  /** The verdict at the level where the div walk stops: the class list is
      checked before the id, and at each the special markers before the
      unwanted ones. */
  predicate LevelVerdict(n: Node) {
    if ClassHas(n, Special) then true
    else if ClassHas(n, Unwanted) then false
    else IdHas(n, Special)
  }

  /** The div rule on an upward chain: the nearest node before `body`
      carrying any marker decides; when none does, the element is kept. */
  predicate DivVerdictOn(c: seq<Node>) {
    var k := FirstStop(c, 0, Hit);
    k == BodyIndex(c) || LevelVerdict(c[k])
  }

  /** Whether `should_process_element` keeps the element, stated rule by
      rule in the order the closure applies them. */
  predicate Accepts(v: Visit, opts: Options) {
    if !IsMainContent(v) then false
    else if NameOf(v.elem) == "span" && opts.span then SpanRescuedOn(Chain(v))
    else if !opts.div && (NameOf(v.elem) == "div" || HasDivAncestor(v)) then
      opts.filterDivs && DivVerdictOn(Chain(v))
    else true
  }

  /** One level of the span walk: the class list, then the id, each
      lower-cased and searched for a special marker. */
  method SpanLevel(current: Node) returns (rescued: bool)
    ensures rescued == Rescues(current)
  {
    if ClassesOf(current) != [] {
      var classNames := Lower(Join(" ", ClassesOf(current)));
      if AnyOf(classNames, Special) {
        return true;
      }
    }
    if IdOf(current) != "" {
      var idName := Lower(IdOf(current));
      if AnyOf(idName, Special) {
        return true;
      }
    }
    return false;
  }

  /** The upward walk of the span branch. */
  method SpanWalk(chain: seq<Node>) returns (rescued: bool)
    ensures rescued == SpanRescuedOn(chain)
  {
    var i := 0;
    while i < |chain| && NameOf(chain[i]) != "body"
      invariant i <= BodyIndex(chain)
      invariant FirstStop(chain, i, Rescues) == FirstStop(chain, 0, Rescues)
      decreases |chain| - i
    {
      var hit := SpanLevel(chain[i]);
      if hit {
        return true;
      }
      i := i + 1;
    }
    return false;
  }

  /** One level of the div walk: whether the node carries a marker, and
      if so the verdict it gives. The class list comes before the id, and
      at each the special markers before the unwanted ones. */
  method DivLevel(current: Node) returns (hit: bool, keep: bool)
    ensures hit == Hit(current)
    ensures hit ==> keep == LevelVerdict(current)
  {
    if ClassesOf(current) != [] {
      var classNames := Lower(Join(" ", ClassesOf(current)));
      if AnyOf(classNames, Special) {
        return true, true;
      }
      if AnyOf(classNames, Unwanted) {
        return true, false;
      }
    }
    if IdOf(current) != "" {
      var idName := Lower(IdOf(current));
      if AnyOf(idName, Special) {
        return true, true;
      }
      if AnyOf(idName, Unwanted) {
        return true, false;
      }
    }
    return false, true;
  }

  /** The upward walk of the div branch with filtering on. */
  method DivWalk(chain: seq<Node>) returns (keep: bool)
    ensures keep == DivVerdictOn(chain)
  {
    var i := 0;
    while i < |chain| && NameOf(chain[i]) != "body"
      invariant i <= BodyIndex(chain)
      invariant FirstStop(chain, i, Hit) == FirstStop(chain, 0, Hit)
      decreases |chain| - i
    {
      var hit, verdict := DivLevel(chain[i]);
      if hit {
        return verdict;
      }
      i := i + 1;
    }
    return true;
  }

  /** `should_process_element`. */
  method ShouldProcessElement(v: Visit, opts: Options) returns (keep: bool)
    ensures keep == Accepts(v, opts)
  {
    if !IsMainContent(v) {
      return false;
    }
    if NameOf(v.elem) == "span" && opts.span {
      keep := SpanWalk(Chain(v));
      return;
    }
    if !opts.div {
      if NameOf(v.elem) == "div" || HasDivAncestor(v) {
        if opts.filterDivs {
          keep := DivWalk(Chain(v));
          return;
        } else {
          return false;
        }
      }
    }
    return true;
  }

  // ---------------------------------------------------------------------
  // Properties of the rules

  /** Whether an element is main content depends on its ancestors only:
      a boilerplate element itself (a `nav`, say) passes the test. */
  lemma MainContentIgnoresOwnName(v: Visit, other: Node)
    ensures IsMainContent(v) == IsMainContent(Visit(other, v.ancestors))
  {
  }

  /** An element below a `header`, `footer`, `nav` or `aside` is dropped
      under every configuration, whatever markers it or its ancestors
      carry: no marker rescues it. */
  lemma BoilerplateAncestorDrops(v: Visit, opts: Options, i: int)
    requires 0 <= i < |v.ancestors| && NameOf(v.ancestors[i]) in Boilerplate
    ensures !Accepts(v, opts)
  {
  }

  /** The walk stops exactly at the first node satisfying `stop`. */
  lemma {:induction false} FirstStopIsFirst(c: seq<Node>, i: nat, k: int, stop: Node -> bool)
    requires i <= k < BodyIndex(c) && stop(c[k])
    requires forall j :: i <= j < k ==> !stop(c[j])
    ensures FirstStop(c, i, stop) == k
    decreases k - i
  {
    if i < k {
      FirstStopIsFirst(c, i + 1, k, stop);
    }
  }

  /** A span is rescued exactly when some node from the span up to the
      nearest `body` carries a special marker. */
  lemma SpanRescuedIff(c: seq<Node>)
    ensures SpanRescuedOn(c) <==> exists k :: 0 <= k < BodyIndex(c) && Rescues(c[k])
  {
    if exists k :: 0 <= k < BodyIndex(c) && Rescues(c[k]) {
      var k :| 0 <= k < BodyIndex(c) && Rescues(c[k]);
      assert FirstStop(c, 0, Rescues) <= k;
    }
  }

  /** The div walk is decided by the nearest node before `body` that
      carries any marker: what lies beyond it does not matter. */
  lemma NearestHitDecides(c: seq<Node>, k: int)
    requires 0 <= k < BodyIndex(c) && Hit(c[k])
    requires forall j :: 0 <= j < k ==> !Hit(c[j])
    ensures DivVerdictOn(c) == LevelVerdict(c[k])
  {
    FirstStopIsFirst(c, 0, k, Hit);
  }

  /** With no marked node before `body` the div walk keeps the element. */
  lemma UnmarkedChainKept(c: seq<Node>)
    requires forall j :: 0 <= j < BodyIndex(c) ==> !Hit(c[j])
    ensures DivVerdictOn(c)
  {
  }

  /** A div (or an element inside a div) that carries a marker itself is
      kept or dropped by its own markers alone, whatever its ancestors
      carry, when divs are off and filtering is on. */
  lemma OwnMarkerDecides(v: Visit, opts: Options)
    requires IsMainContent(v) && !opts.div && opts.filterDivs
    requires NameOf(v.elem) != "span" || !opts.span
    requires NameOf(v.elem) == "div" || HasDivAncestor(v)
    requires NameOf(v.elem) != "body" && Hit(v.elem)
    ensures Accepts(v, opts) == LevelVerdict(v.elem)
  {
    NearestHitDecides(Chain(v), 0);
  }

  /** A span whose parent (below `body`) carries a special marker is kept
      whenever spans are enabled, whatever the span itself carries. */
  lemma SpanParentMarkerKeeps(v: Visit, opts: Options)
    requires IsMainContent(v) && opts.span && NameOf(v.elem) == "span"
    requires |v.ancestors| > 0 && NameOf(v.ancestors[0]) != "body" && Rescues(v.ancestors[0])
    ensures Accepts(v, opts)
  {
    var c := Chain(v);
    assert c[1] == v.ancestors[0];
    assert BodyIndex(c) == 1 + BodyIndex(c[1..]);
    assert 1 < BodyIndex(c);
  }

  /** A span that carries a special marker itself is kept whenever spans
      are enabled, whatever the div settings. */
  lemma SpanOwnMarkerKeeps(v: Visit, opts: Options)
    requires IsMainContent(v) && opts.span
    requires NameOf(v.elem) == "span" && Rescues(v.elem)
    ensures Accepts(v, opts)
  {
    FirstStopIsFirst(Chain(v), 0, 0, Rescues);
  }
}
