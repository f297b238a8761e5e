/**
 * Concrete pages run through the model: the precedence of the classifier
 * rules on nested markers, the paragraph and list extraction of small
 * fragments, and what an all-options-off configuration extracts.
 */
module Scenarios {
  import opened Wrappers
  import opened Dom
  import opened Config
  import opened Classifier
  import opened Extractor

  function Plain(name: string, kids: seq<Node>): Node {
    Elem(name, [], "", kids)
  }

  function Classed(name: string, cls: string, kids: seq<Node>): Node {
    Elem(name, [cls], "", kids)
  }

  // ---------------------------------------------------------------------
  // Helpers on concrete strings and trees

  /** A marker that starts the string makes `any(...)` hold. */
  lemma MarkerFound(s: string, markers: seq<string>, i: int)
    requires 0 <= i < |markers| && |markers[i]| <= |s| && s[..|markers[i]|] == markers[i]
    ensures AnyOf(s, markers)
  {
    assert markers[i] in markers && Contains(s, markers[i]);
  }

  /** A needle with a character the haystack lacks does not occur in it. */
  lemma {:induction false} MissingChar(s: string, needle: string, j: int)
    requires 0 <= j < |needle| && forall i :: 0 <= i < |s| ==> s[i] != needle[j]
    ensures !Contains(s, needle)
    decreases |s|
  {
    if |needle| <= |s| {
      assert s[..|needle|][j] == s[j];
      if s != [] {
        MissingChar(s[1..], needle, j);
      }
    }
  }

  /** The main-content test, position by position, for concrete chains. */
  lemma MainContentByAncestors(v: Visit)
    ensures IsMainContent(v) <==> forall i :: 0 <= i < |v.ancestors| ==> NameOf(v.ancestors[i]) !in Boilerplate
  {
  }

  /** The visits of a single child: the child itself when it is an
      element, then its descendants. */
  lemma ForestVisitsSingle(k: Node, ancestors: seq<Node>)
    ensures ForestVisits([k], ancestors) == (if k.Elem? then [Visit(k, ancestors)] else []) + Descendants(k, ancestors)
  {
    assert [k][1..] == [];
  }

  // ---------------------------------------------------------------------
  // Nested markers

  /** No marker of the list occurs in the string: `any(...)` fails. */
  lemma NoneOf(s: string, markers: seq<string>)
    requires forall i :: 0 <= i < |markers| ==> !Contains(s, markers[i])
    ensures !AnyOf(s, markers)
  {
  }

  /** "cookie-banner" carries an unwanted marker. */
  lemma CookieBannerUnwanted()
    ensures AnyOf("cookie-banner", Unwanted)
  {
    MarkerFound("cookie-banner", Unwanted, 9);
  }

  /** "cookie-banner" carries no special marker: each special marker has a
      character the string lacks. */
  lemma CookieBannerNotSpecial()
    ensures !AnyOf("cookie-banner", Special)
  {
    var s := "cookie-banner";
    forall i | 0 <= i < |Special| ensures !Contains(s, Special[i]) {
      if i == 0 { MissingChar(s, Special[0], 5); }
      else if i == 1 { MissingChar(s, Special[1], 0); }
      else if i == 2 { MissingChar(s, Special[2], 0); }
      else if i == 3 { MissingChar(s, Special[3], 2); }
      else if i == 4 { MissingChar(s, Special[4], 0); }
      else if i == 5 { MissingChar(s, Special[5], 2); }
      else if i == 6 { MissingChar(s, Special[6], 0); }
      else if i == 7 { MissingChar(s, Special[7], 0); }
      else if i == 8 { MissingChar(s, Special[8], 0); }
      else if i == 9 { MissingChar(s, Special[9], 2); }
      else if i == 10 { MissingChar(s, Special[10], 0); }
      else if i == 11 { MissingChar(s, Special[11], 1); }
      else if i == 12 { MissingChar(s, Special[12], 0); }
      else if i == 13 { MissingChar(s, Special[13], 0); }
      else { MissingChar(s, Special[14], 0); }
    }
    NoneOf(s, Special);
  }

  const AccordionDiv: Node := Classed("div", "accordion", [Text("Q")])
  const CookieDiv: Node := Classed("div", "cookie-banner", [AccordionDiv])
  const CookieBody: Node := Plain("body", [CookieDiv])

  /** A `div.accordion` inside a `div.cookie-banner`, divs off and
      filtering on: the walk starts at the element itself, whose special
      marker keeps it, and its direct text becomes a paragraph. */
  lemma AccordionInsideCookieBannerKept(opts: Options)
    requires !opts.div && opts.filterDivs
    ensures var v := Visit(AccordionDiv, [CookieDiv, CookieBody, Plain("html", [CookieBody])]);
            && Accepts(v, opts)
            && BlockOf(v, opts) == Some(TextParagraph("Q"))
  {
    var v := Visit(AccordionDiv, [CookieDiv, CookieBody, Plain("html", [CookieBody])]);
    assert Lower(Join(" ", ["accordion"])) == "accordion";
    MarkerFound("accordion", Special, 0);
    assert ClassHas(AccordionDiv, Special);
    OwnMarkerDecides(v, opts);
    AccordionDivBlock(opts);
  }

  /** A tag name that is not two characters long is no heading tag. */
  lemma NotHeading(opts: Options, t: string)
    requires |t| != 2
    ensures t !in HeadingTags(opts)
  {
    HeadingTagsMembers(opts, t);
  }

  lemma AccordionDivBlock(opts: Options)
    ensures ElementBlock(AccordionDiv, opts) == Some(TextParagraph("Q"))
  {
    NotHeading(opts, "div");
    assert Strip("Q") == "Q";
    assert DirectStrings([Text("Q")]) == ["Q"];
    assert NonBlank(["Q"]) == ["Q"];
    assert Join(" ", ["Q"]) == "Q";
  }

  const CookieInner: Node := Classed("div", "cookie-banner", [Text("Q")])
  const AccordionOuter: Node := Classed("div", "accordion", [CookieInner])
  const AccordionBody: Node := Plain("body", [AccordionOuter])

  /** A `div.cookie-banner` inside a `div.accordion`, divs off and
      filtering on: the nearer, unwanted marker decides, and the outer
      special marker does not rescue the element. */
  lemma CookieBannerInsideAccordionDropped(opts: Options)
    requires !opts.div && opts.filterDivs
    ensures !Accepts(Visit(CookieInner, [AccordionOuter, AccordionBody, Plain("html", [AccordionBody])]), opts)
  {
    var v := Visit(CookieInner, [AccordionOuter, AccordionBody, Plain("html", [AccordionBody])]);
    MainContentByAncestors(v);
    assert Lower(Join(" ", ["cookie-banner"])) == "cookie-banner";
    CookieBannerUnwanted();
    CookieBannerNotSpecial();
    assert ClassHas(CookieInner, Unwanted) && !ClassHas(CookieInner, Special);
    OwnMarkerDecides(v, opts);
  }

  const FaqSpan: Node := Classed("span", "faq-answer", [Text("A")])
  const FaqEm: Node := Plain("em", [FaqSpan])
  const FaqSection: Node := Plain("section", [FaqEm])
  const FaqDiv: Node := Plain("div", [FaqSection])
  const FaqBody: Node := Plain("body", [FaqDiv])

  /** A `span.faq-answer` three levels inside a plain `div` is kept when
      spans are enabled, whether or not divs are. */
  lemma FaqSpanRescued(opts: Options)
    requires opts.span
    ensures Accepts(Visit(FaqSpan, [FaqEm, FaqSection, FaqDiv, FaqBody, Plain("html", [FaqBody])]), opts)
  {
    var v := Visit(FaqSpan, [FaqEm, FaqSection, FaqDiv, FaqBody, Plain("html", [FaqBody])]);
    assert Lower(Join(" ", ["faq-answer"])) == "faq-answer";
    MarkerFound("faq-answer", Special, 1);
    assert ClassHas(FaqSpan, Special);
    SpanOwnMarkerKeeps(v, opts);
  }

  const FaqPara: Node := Classed("p", "faq", [Text("A")])
  const NavBlock: Node := Plain("nav", [FaqPara])
  const NavBody: Node := Plain("body", [NavBlock])

  /** A `p.faq` inside a `nav` is dropped under every configuration: the
      boilerplate test comes before any marker is read. */
  lemma FaqInsideNavDropped(opts: Options)
    ensures !Accepts(Visit(FaqPara, [NavBlock, NavBody, Plain("html", [NavBody])]), opts)
  {
    BoilerplateAncestorDrops(Visit(FaqPara, [NavBlock, NavBody, Plain("html", [NavBody])]), opts, 0);
  }

  const BareSpan: Node := Plain("span", [Text("A")])
  const FaqOuter: Node := Classed("div", "faq", [BareSpan])
  const FaqOuterBody: Node := Plain("body", [FaqOuter])

  /** A span without markers of its own, directly inside a `div.faq`, is
      kept when spans are enabled: the upward walk finds the marker one
      level up, before `body`. */
  lemma PlainSpanUnderFaqDivRescued(opts: Options)
    requires opts.span
    ensures Accepts(Visit(BareSpan, [FaqOuter, FaqOuterBody, Plain("html", [FaqOuterBody])]), opts)
  {
    var v := Visit(BareSpan, [FaqOuter, FaqOuterBody, Plain("html", [FaqOuterBody])]);
    MainContentByAncestors(v);
    FaqOuterRescues();
    SpanParentMarkerKeeps(v, opts);
  }

  /** The `faq` class of the outer div is a special marker. */
  lemma FaqOuterRescues()
    ensures Rescues(FaqOuter)
  {
    assert Lower(Join(" ", ["faq"])) == "faq";
    MarkerFound("faq", Special, 1);
  }

  /** A span without markers on its way to `body` is dropped when spans
      are enabled. */
  lemma PlainSpanDropped(opts: Options)
    requires opts.span
    ensures var span := Plain("span", [Text("A")]);
            var d := Plain("div", [span]);
            var body := Plain("body", [d]);
            !Accepts(Visit(span, [d, body, Plain("html", [body])]), opts)
  {
  }

  // ---------------------------------------------------------------------
  // Paragraphs and lists

  /** Three present entries flatten to their three values. */
  lemma SomesThree<T>(a: T, b: T, c: T)
    ensures Somes([Some(a), Some(b), Some(c)]) == [a, b, c]
  {
    var os := [Some(a), Some(b), Some(c)];
    var two := os[..|os| - 1];
    var one := two[..|two| - 1];
    assert two == [Some(a), Some(b)] && one == [Some(a)] && one[..|one| - 1] == [];
    assert Somes(one) == [a];
    assert Somes(two) == [a, b];
  }

  /** An absent entry followed by a present one flattens to its value. */
  lemma SomesNoneSome<T>(x: T)
    ensures Somes([None, Some(x)]) == [x]
  {
    var os: seq<Option<T>> := [None, Some(x)];
    assert os[..|os| - 1] == [None] && os[|os| - 1] == Some(x);
    assert Somes([None]) == Somes<T>([]) + [] by {
      var one: seq<Option<T>> := [None];
      assert one[..|one| - 1] == [];
    }
  }

  lemma HelloRun()
    ensures ChildRun(Text("Hello ")) == Some(Run("Hello", false))
  {
    assert Strip("Hello ") == "Hello";
  }

  lemma WorldRun()
    ensures ChildRun(Plain("b", [Text("World")])) == Some(Run("World", true))
  {
    assert Strip("World") == "World";
    assert GetText(Plain("b", [Text("World")]), "") == "World";
  }

  lemma BangRun()
    ensures ChildRun(Text("!")) == Some(Run("!", false))
  {
    assert Strip("!") == "!";
  }

  /** `<p>Hello <b>World</b>!</p>` gives three runs in document order. */
  lemma HelloWorldRuns()
    ensures Runs([Text("Hello "), Plain("b", [Text("World")]), Text("!")])
         == [Run("Hello", false), Run("World", true), Run("!", false)]
  {
    HelloRun();
    WorldRun();
    BangRun();
    var kids := [Text("Hello "), Plain("b", [Text("World")]), Text("!")];
    assert ChildRuns(kids) == [Some(Run("Hello", false)), Some(Run("World", true)), Some(Run("!", false))];
    SomesThree(Run("Hello", false), Run("World", true), Run("!", false));
  }

  const LinkItem: Node := Plain("li", [Plain("a", [Text("Home")])])
  const PlainItem: Node := Plain("li", [Text("Item")])

  /** An `li` with a link below it gives no item. */
  lemma LinkItemSkipped()
    ensures ItemOf(LinkItem) == None
  {
    ForestVisitsSingle(Plain("a", [Text("Home")]), [LinkItem]);
    assert [LinkItem] + [] == [LinkItem];
    assert Descendants(LinkItem, [])[0].elem == Plain("a", [Text("Home")]);
  }

  /** A plain `li` gives an item of its one run. */
  lemma PlainItemKept()
    ensures ItemOf(PlainItem) == Some(Item([Run("Item", false)]))
  {
    ForestVisitsSingle(Text("Item"), [PlainItem]);
    assert [PlainItem] + [] == [PlainItem];
    assert Find(PlainItem, [], "a") == None;
    assert Strip("Item") == "Item";
    assert ChildRuns([Text("Item")]) == [Some(Run("Item", false))];
    assert ChildRuns([Text("Item")])[..0] == [];
    assert Runs(KidsOf(PlainItem)) == [Run("Item", false)];
  }

  /** A list with an `li` holding a link and a plain `li`: only the plain
      item is kept. */
  lemma AnchorItemDropped()
    ensures Items([LinkItem, PlainItem]) == [Item([Run("Item", false)])]
  {
    LinkItemSkipped();
    PlainItemKept();
    assert ChildItems([LinkItem, PlainItem]) == [None, Some(Item([Run("Item", false)]))];
    SomesNoneSome(Item([Run("Item", false)]));
  }

  // ---------------------------------------------------------------------
  // Every option off

  /** Options with every element kind off. */
  const AllOff: Options := Options({}, false, false, true, false, false, false, false)

  const TitleNode: Node := Plain("title", [Text("T")])
  const HeadNode: Node := Plain("head", [TitleNode])
  const ParaNode: Node := Plain("p", [Text("x")])
  const BodyNode: Node := Plain("body", [ParaNode])
  const SmallPage: Node := Plain("html", [HeadNode, BodyNode])

  /** The elements of the small page, in document order. */
  lemma SmallPageVisits()
    ensures Descendants(SmallPage, []) == [Visit(HeadNode, [SmallPage]), Visit(TitleNode, [HeadNode, SmallPage]),
                                           Visit(BodyNode, [SmallPage]), Visit(ParaNode, [BodyNode, SmallPage])]
  {
    ForestVisitsSingle(Text("T"), [TitleNode, HeadNode, SmallPage]);
    ForestVisitsSingle(TitleNode, [HeadNode, SmallPage]);
    ForestVisitsSingle(Text("x"), [ParaNode, BodyNode, SmallPage]);
    ForestVisitsSingle(ParaNode, [BodyNode, SmallPage]);
    ForestVisitsSingle(BodyNode, [SmallPage]);
    assert [TitleNode] + [HeadNode, SmallPage] == [TitleNode, HeadNode, SmallPage];
    assert [HeadNode] + [SmallPage] == [HeadNode, SmallPage];
    assert [ParaNode] + [BodyNode, SmallPage] == [ParaNode, BodyNode, SmallPage];
    assert [BodyNode] + [SmallPage] == [BodyNode, SmallPage];
    assert [SmallPage] + [] == [SmallPage];
    assert Descendants(TitleNode, [HeadNode, SmallPage]) == [];
    assert Descendants(HeadNode, [SmallPage]) == [Visit(TitleNode, [HeadNode, SmallPage])];
    assert Descendants(ParaNode, [BodyNode, SmallPage]) == [];
    assert Descendants(BodyNode, [SmallPage]) == [Visit(ParaNode, [BodyNode, SmallPage])];
    assert [HeadNode, BodyNode][1..] == [BodyNode];
  }

  lemma SmallPageFinds()
    ensures Find(SmallPage, [], "title") == Some(Visit(TitleNode, [HeadNode, SmallPage]))
    ensures Find(SmallPage, [], "body") == Some(Visit(BodyNode, [SmallPage]))
  {
    SmallPageVisits();
    var vs := Descendants(SmallPage, []);
    assert NameOf(vs[0].elem) == "head" && NameOf(vs[1].elem) == "title" && NameOf(vs[2].elem) == "body";
    assert vs[1..][1..] == vs[2..];
  }

  lemma SmallPageTitle()
    ensures TitleText(SmallPage) == "T"
  {
    SmallPageFinds();
    assert StringOf(TitleNode) == Some("T");
    assert Strip("T") == "T";
  }

  lemma BodyVisits()
    ensures Descendants(BodyNode, [SmallPage]) == [Visit(ParaNode, [BodyNode, SmallPage])]
  {
    ForestVisitsSingle(Text("x"), [ParaNode, BodyNode, SmallPage]);
    ForestVisitsSingle(ParaNode, [BodyNode, SmallPage]);
    assert [ParaNode] + [BodyNode, SmallPage] == [ParaNode, BodyNode, SmallPage];
    assert [BodyNode] + [SmallPage] == [BodyNode, SmallPage];
    assert Descendants(ParaNode, [BodyNode, SmallPage]) == [];
  }

  lemma ParagraphKept()
    ensures Accepts(Visit(ParaNode, [BodyNode, SmallPage]), AllOff)
  {
    MainContentByAncestors(Visit(ParaNode, [BodyNode, SmallPage]));
  }

  lemma ParagraphBlock()
    ensures ElementBlock(ParaNode, AllOff) == Some(RunParagraph([Run("x", false)]))
  {
    NotHeading(AllOff, "p");
    assert Strip("x") == "x";
    assert ChildRuns([Text("x")]) == [Some(Run("x", false))];
    assert ChildRuns([Text("x")])[..0] == [];
    assert Runs(KidsOf(ParaNode)) == [Run("x", false)];
  }

  lemma SmallPageBlocks()
    ensures Blocks(Scan(Visit(BodyNode, [SmallPage]), []), AllOff) == [RunParagraph([Run("x", false)])]
  {
    BodyVisits();
    ParagraphKept();
    ParagraphBlock();
    var v := Visit(ParaNode, [BodyNode, SmallPage]);
    assert [v][1..] == [];
    assert Select([v][1..], []) == [];
    assert Select([v], []) == [v];
    assert Scan(Visit(BodyNode, [SmallPage]), []) == [v];
    var os := VisitBlocks([v], AllOff);
    assert os == [Some(RunParagraph([Run("x", false)]))];
    assert os[..0] == [] && Somes(os[..0]) == [];
    assert Blocks([v], AllOff) == Somes(os) == [RunParagraph([Run("x", false)])];
  }

  /** With every option off the tag list is empty, which selects every
      element; the page's paragraph is then still extracted. */
  lemma AllOffStillExtractsParagraphs()
    ensures Extract(SmallPage, AllOff) == Success([Title("T"), RunParagraph([Run("x", false)])])
  {
    SelectedTagsEmpty(AllOff);
    SmallPageFinds();
    SmallPageTitle();
    SmallPageBlocks();
    assert SelectedTags(AllOff) == [];
    var body := Visit(BodyNode, [SmallPage]);
    assert Find(SmallPage, [], "body") == Some(body);
    assert Extract(SmallPage, AllOff) == Success([Title(TitleText(SmallPage))] + Blocks(Scan(body, []), AllOff));
    assert [Title("T")] + [RunParagraph([Run("x", false)])] == [Title("T"), RunParagraph([Run("x", false)])];
  }
}
