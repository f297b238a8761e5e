/**
 * The content extractor, `process_content`: the title, then one block per
 * scanned element that the classifier keeps and that yields content.
 */
module Extractor {
  import opened Wrappers
  import opened Dom
  import opened Config
  import opened Classifier

  /** A piece of paragraph or list-item text with its boldness. */
  datatype Run = Run(text: string, bold: bool)

  /** One list item: its runs. */
  datatype Item = Item(parts: seq<Run>)

  /** The content blocks: the title, a heading with its level, a paragraph
      of runs, a plain-text paragraph (from a div, span, header or footer)
      and a list. */
  datatype Block =
    | Title(text: string)
    | Header(level: int, text: string)
    | RunParagraph(parts: seq<Run>)
    | TextParagraph(text: string)
    | ListBlock(items: seq<Item>)

  /** `process_content` raises when the page has no `body` element. */
  datatype ExtractError = NoBody

  /** The title used when the page has no usable title. */
  const Untitled: string := "Başlıksız"

  // ---------------------------------------------------------------------
  // Specification

  /** The title: the stripped `.string` of the first `title` element when
      that string exists and is not empty, the fallback otherwise. */
  function TitleText(doc: Node): string {
    match Find(doc, [], "title")
    case None => Untitled
    case Some(t) =>
      match StringOf(t.elem)
      case Some(s) => if s != "" then Strip(s) else Untitled
      case None => Untitled
  }

  /** The fallback is used when there is no `title` element, or its
      `.string` is None or empty; any other title is a stripped `.string`
      of the first `title` element. */
  lemma TitleTextCases(doc: Node)
    ensures Find(doc, [], "title").None? ==> TitleText(doc) == Untitled
    ensures Find(doc, [], "title").Some? && StringOf(Find(doc, [], "title").value.elem) in {None, Some("")} ==>
      TitleText(doc) == Untitled
    ensures Find(doc, [], "title").Some? && StringOf(Find(doc, [], "title").value.elem).Some?
            && StringOf(Find(doc, [], "title").value.elem).value != "" ==>
      TitleText(doc) == Strip(StringOf(Find(doc, [], "title").value.elem).value)
    ensures TitleText(doc) != Untitled ==>
      && Find(doc, [], "title").Some?
      && StringOf(Find(doc, [], "title").value.elem).Some?
      && TitleText(doc) == Strip(StringOf(Find(doc, [], "title").value.elem).value)
  {
  }

  /** The run a direct child contributes: a `b` or `strong` child always
      gives a bold run of its stripped text; any other child whose
      `.string` is not blank gives a plain run of it, stripped. */
  function ChildRun(c: Node): Option<Run> {
    if NameOf(c) == "b" || NameOf(c) == "strong" then Some(Run(GetText(c, ""), true))
    else
      match StringOf(c)
      case Some(s) => if s != "" && Strip(s) != "" then Some(Run(Strip(s), false)) else None
      case None => None
  }

  /** What each direct child contributes to the runs. */
  function ChildRuns(kids: seq<Node>): (os: seq<Option<Run>>)
    ensures |os| == |kids| && forall i :: 0 <= i < |kids| ==> os[i] == ChildRun(kids[i])
  {
    seq(|kids|, i requires 0 <= i < |kids| => ChildRun(kids[i]))
  }

  /** The runs of a paragraph or list item, from its direct children in
      order. */
  function Runs(kids: seq<Node>): seq<Run> {
    Somes(ChildRuns(kids))
  }

  /** A paragraph or list item has runs exactly when some direct child
      contributes one: a `b`/`strong` child always does, and only a bold
      run can have empty text. */
  lemma RunsShape(kids: seq<Node>)
    ensures Runs(kids) == [] <==> forall i :: 0 <= i < |kids| ==> ChildRun(kids[i]).None?
    ensures (exists i :: 0 <= i < |kids| && NameOf(kids[i]) in {"b", "strong"}) ==> Runs(kids) != []
    ensures forall r :: r in Runs(kids) ==> r.bold || r.text != ""
  {
    SomesEmpty(ChildRuns(kids));
    forall r | r in Runs(kids) ensures r.bold || r.text != "" {
      SomesMembers(ChildRuns(kids), r);
    }
  }

  /** The runs of consecutive children concatenate: each child contributes
      its own runs, in document order. */
  lemma RunsAppend(a: seq<Node>, b: seq<Node>)
    ensures Runs(a + b) == Runs(a) + Runs(b)
  {
    assert ChildRuns(a + b) == ChildRuns(a) + ChildRuns(b);
    SomesAppend(ChildRuns(a), ChildRuns(b));
  }

  /** The item a direct child of a list contributes: an `li` with no `a`
      anywhere below it, when it has runs. */
  function ItemOf(c: Node): Option<Item> {
    if NameOf(c) != "li" then None
    else if Find(c, [], "a").Some? then None
    else
      var rs := Runs(KidsOf(c));
      if rs != [] then Some(Item(rs)) else None
  }

  function ChildItems(kids: seq<Node>): (os: seq<Option<Item>>)
    ensures |os| == |kids| && forall i :: 0 <= i < |kids| ==> os[i] == ItemOf(kids[i])
  {
    seq(|kids|, i requires 0 <= i < |kids| => ItemOf(kids[i]))
  }

  /** The items of a list, from its direct children in order. */
  function Items(kids: seq<Node>): seq<Item> {
    Somes(ChildItems(kids))
  }

  /** Every list item comes from a direct `li` child with no `a` below it,
      and has runs. */
  lemma ItemsShape(kids: seq<Node>)
    ensures forall it :: it in Items(kids) ==>
      && it.parts != []
      && exists i :: 0 <= i < |kids| && NameOf(kids[i]) == "li" && Find(kids[i], [], "a").None?
                     && it.parts == Runs(KidsOf(kids[i]))
  {
    forall it | it in Items(kids)
      ensures it.parts != [] &&
        exists i :: 0 <= i < |kids| && NameOf(kids[i]) == "li" && Find(kids[i], [], "a").None?
                    && it.parts == Runs(KidsOf(kids[i]))
    {
      SomesMembers(ChildItems(kids), it);
    }
  }

  /** The block an element contributes when the classifier keeps it. */
  function ElementBlock(n: Node, opts: Options): Option<Block> {
    var name := NameOf(n);
    if name in HeadingTags(opts) then
      var text := GetText(n, "");
      if text != "" then Some(Header(HeadingLevel(name), text)) else None
    else if name == "p" then
      var rs := Runs(KidsOf(n));
      if rs != [] then Some(RunParagraph(rs)) else None
    else if name == "ul" || name == "ol" then
      var items := Items(KidsOf(n));
      if items != [] then Some(ListBlock(items)) else None
    else if name == "div" then
      var direct := Join(" ", NonBlank(DirectStrings(KidsOf(n))));
      if direct != "" then Some(TextParagraph(direct)) else None
    else if name == "span" && opts.span then
      var text := GetText(n, " ");
      if text != "" then Some(TextParagraph(text)) else None
    else if (name == "header" && opts.headers) || (name == "footer" && opts.footers) then
      var text := GetText(n, "");
      if text != "" then Some(TextParagraph(text)) else None
    else None
  }

  /** The block a scanned element contributes. */
  function BlockOf(v: Visit, opts: Options): Option<Block> {
    if Accepts(v, opts) then ElementBlock(v.elem, opts) else None
  }

  function VisitBlocks(vs: seq<Visit>, opts: Options): (os: seq<Option<Block>>)
    ensures |os| == |vs| && forall i :: 0 <= i < |vs| ==> os[i] == BlockOf(vs[i], opts)
  {
    seq(|vs|, i requires 0 <= i < |vs| => BlockOf(vs[i], opts))
  }

  /** The blocks of a sequence of scanned elements, in order. */
  function Blocks(vs: seq<Visit>, opts: Options): seq<Block> {
    Somes(VisitBlocks(vs, opts))
  }

  /** The visits among `vs` whose tag name the tag list selects, in order. */
  function Select(vs: seq<Visit>, tags: seq<string>): (r: seq<Visit>)
    ensures forall v :: v in r <==> v in vs && Matches(NameOf(v.elem), tags)
    decreases |vs|
  {
    if vs == [] then []
    else
      var rest := Select(vs[1..], tags);
      assert forall v :: v in vs <==> v == vs[0] || v in vs[1..];
      if Matches(NameOf(vs[0].elem), tags) then [vs[0]] + rest else rest
  }

  /** Selection keeps document order: the matches in a concatenation are
      the matches in the first part, then those in the second. */
  lemma {:induction false} SelectAppend(x: seq<Visit>, y: seq<Visit>, tags: seq<string>)
    ensures Select(x + y, tags) == Select(x, tags) + Select(y, tags)
    decreases |x|
  {
    if x == [] {
      assert x + y == y;
    } else {
      assert (x + y)[0] == x[0] && (x + y)[1..] == x[1..] + y;
      SelectAppend(x[1..], y, tags);
    }
  }

  /** `soup.body.find_all(tags, recursive=True)`: every element below the
      body, in document order, whose name the tag list selects. */
  function Scan(body: Visit, tags: seq<string>): seq<Visit> {
    Select(Descendants(body.elem, body.ancestors), tags)
  }

  /** `process_content`, as a value. */
  function Extract(doc: Node, opts: Options): Result<seq<Block>, ExtractError> {
    match Find(doc, [], "body")
    case None => Failure(NoBody)
    case Some(body) =>
      Success([Title(TitleText(doc))] + Blocks(Scan(body, SelectedTags(opts)), opts))
  }

  // ---------------------------------------------------------------------
  // Properties of the extracted blocks

  /** What every block after the title satisfies: a heading of an enabled
      level 1..6 with text, a paragraph with at least one run, a non-empty
      plain-text paragraph, or a list whose items all have runs. */
  predicate ContentBlock(b: Block, opts: Options) {
    match b
    case Title(_) => false
    case Header(level, text) => 1 <= level <= 6 && level in opts.headings && text != ""
    case RunParagraph(parts) => parts != []
    case TextParagraph(text) => text != ""
    case ListBlock(items) => items != [] && forall it :: it in items ==> it.parts != []
  }

  lemma ElementBlockIsContent(n: Node, opts: Options)
    ensures ElementBlock(n, opts).Some? ==> ContentBlock(ElementBlock(n, opts).value, opts)
  {
    HeadingTagsMembers(opts, NameOf(n));
    ItemsShape(KidsOf(n));
  }

  /** Blocks of consecutive scans concatenate: each scanned element
      contributes its own block, in scan order. */
  lemma BlocksAppend(a: seq<Visit>, b: seq<Visit>, opts: Options)
    ensures Blocks(a + b, opts) == Blocks(a, opts) + Blocks(b, opts)
  {
    var x, y := VisitBlocks(a + b, opts), VisitBlocks(a, opts) + VisitBlocks(b, opts);
    forall i | 0 <= i < |x| ensures x[i] == y[i] {
      if i < |a| {
        assert (a + b)[i] == a[i];
      } else {
        assert (a + b)[i] == b[i - |a|];
      }
    }
    assert x == y;
    SomesAppend(VisitBlocks(a, opts), VisitBlocks(b, opts));
  }

  /** Every block produced by the scan loop is a content block coming from
      a scanned element that the classifier keeps. */
  lemma BlocksAreContent(vs: seq<Visit>, opts: Options)
    ensures forall b :: b in Blocks(vs, opts) ==>
      && ContentBlock(b, opts)
      && exists i :: 0 <= i < |vs| && Accepts(vs[i], opts) && ElementBlock(vs[i].elem, opts) == Some(b)
  {
    forall b | b in Blocks(vs, opts)
      ensures ContentBlock(b, opts) &&
        exists i :: 0 <= i < |vs| && Accepts(vs[i], opts) && ElementBlock(vs[i].elem, opts) == Some(b)
    {
      SomesMembers(VisitBlocks(vs, opts), b);
      var i :| 0 <= i < |vs| && BlockOf(vs[i], opts) == Some(b);
      ElementBlockIsContent(vs[i].elem, opts);
    }
  }

  /** The extracted page starts with its title block, and every later block
      is a content block; in particular no other title block occurs. */
  lemma ExtractShape(doc: Node, opts: Options)
    ensures Extract(doc, opts).Success? ==>
      var bs := Extract(doc, opts).value;
      && |bs| >= 1 && bs[0] == Title(TitleText(doc))
      && forall j :: 1 <= j < |bs| ==> ContentBlock(bs[j], opts)
  {
    match Find(doc, [], "body")
    case None =>
    case Some(body) =>
      var bs := Blocks(Scan(body, SelectedTags(opts)), opts);
      BlocksAreContent(Scan(body, SelectedTags(opts)), opts);
      assert forall j :: 0 <= j < |bs| ==> bs[j] in bs;
  }

  /** Extraction fails exactly when the page has no `body` element. */
  lemma ExtractFailsWithoutBody(doc: Node, opts: Options)
    ensures Extract(doc, opts).Failure? <==> forall v :: v in Descendants(doc, []) ==> NameOf(v.elem) != "body"
  {
    if Find(doc, [], "body").Some? {
      assert Find(doc, [], "body").value in Descendants(doc, []);
    }
  }

  /** With at least one option on, the scan visits only elements whose tag
      the options select, so it never visits a `div`: the div branch of
      the scan loop only runs when every option is off. */
  lemma ScanSelectsOptionTags(body: Visit, opts: Options)
    requires SelectedTags(opts) != []
    ensures forall v :: v in Scan(body, SelectedTags(opts)) ==>
      NameOf(v.elem) in SelectedTags(opts) && NameOf(v.elem) != "div"
  {
    SelectedTagsMembers(opts, "div");
  }

  /** A title whose string is non-empty but all whitespace gives an empty
      title, not the fallback. */
  lemma BlankTitleIsEmpty(doc: Node, s: string)
    requires Find(doc, [], "title").Some? && StringOf(Find(doc, [], "title").value.elem) == Some(s)
    requires s != [] && forall i :: 0 <= i < |s| ==> IsSpace(s[i])
    ensures TitleText(doc) == ""
  {
    StripAllSpace(s);
  }

  // ---------------------------------------------------------------------
  // The loops of process_content

  /** The run loop over `contents` of a paragraph or list item. */
  method CollectRuns(kids: seq<Node>) returns (parts: seq<Run>)
    ensures parts == Runs(kids)
  {
    parts := [];
    for i := 0 to |kids|
      invariant parts == Somes(ChildRuns(kids)[..i])
    {
      var part := kids[i];
      SomesSnoc(ChildRuns(kids), i);
      if NameOf(part) == "b" || NameOf(part) == "strong" {
        parts := parts + [Run(GetText(part, ""), true)];
      } else {
        var s := StringOf(part);
        if s.Some? && s.value != "" && Strip(s.value) != "" {
          parts := parts + [Run(Strip(s.value), false)];
        }
      }
    }
    assert ChildRuns(kids)[..|kids|] == ChildRuns(kids);
  }

  /** The item loop over the direct `li` children of a list. */
  method CollectItems(kids: seq<Node>) returns (items: seq<Item>)
    ensures items == Items(kids)
  {
    items := [];
    for i := 0 to |kids|
      invariant items == Somes(ChildItems(kids)[..i])
    {
      var li := kids[i];
      SomesSnoc(ChildItems(kids), i);
      if NameOf(li) != "li" || Find(li, [], "a").Some? {
        continue;
      }
      var parts := CollectRuns(KidsOf(li));
      if parts != [] {
        items := items + [Item(parts)];
      }
    }
    assert ChildItems(kids)[..|kids|] == ChildItems(kids);
  }

  /** The body of the scan loop for one element that the classifier kept. */
  method ExtractElement(elem: Node, opts: Options, headerTags: seq<string>) returns (block: Option<Block>)
    requires headerTags == HeadingTags(opts)
    ensures block == ElementBlock(elem, opts)
  {
    var name := NameOf(elem);
    if name in headerTags {
      var text := GetText(elem, "");
      block := if text != "" then Some(Header(HeadingLevel(name), text)) else None;
    } else if name == "p" {
      var boldParts := CollectRuns(KidsOf(elem));
      block := if boldParts != [] then Some(RunParagraph(boldParts)) else None;
    } else if name == "ul" || name == "ol" {
      var items := CollectItems(KidsOf(elem));
      block := if items != [] then Some(ListBlock(items)) else None;
    } else if name == "div" {
      var direct := Join(" ", NonBlank(DirectStrings(KidsOf(elem))));
      block := if direct != "" then Some(TextParagraph(direct)) else None;
    } else if name == "span" && opts.span {
      var text := GetText(elem, " ");
      block := if text != "" then Some(TextParagraph(text)) else None;
    } else if name == "header" && opts.headers {
      var txt := GetText(elem, "");
      block := if txt != "" then Some(TextParagraph(txt)) else None;
    } else if name == "footer" && opts.footers {
      var txt := GetText(elem, "");
      block := if txt != "" then Some(TextParagraph(txt)) else None;
    } else {
      block := None;
    }
  }

  /** `process_content`: the title block, then the scan loop over the body. */
  method ProcessContent(doc: Node, opts: Options) returns (r: Result<seq<Block>, ExtractError>)
    ensures r == Extract(doc, opts)
  {
    var content := [Title(TitleText(doc))];
    var tags, headerTags := BuildTags(opts);
    var body := Find(doc, [], "body");
    if body.None? {
      return Failure(NoBody);
    }
    var elems := Scan(body.value, tags);
    ghost var os := VisitBlocks(elems, opts);
    for i := 0 to |elems|
      invariant content == [Title(TitleText(doc))] + Somes(os[..i])
    {
      var elem := elems[i];
      SomesSnoc(os, i);
      assert os[i] == BlockOf(elem, opts);
      var keep := ShouldProcessElement(elem, opts);
      if !keep {
        continue;
      }
      var block := ExtractElement(elem.elem, opts, headerTags);
      AppendAssoc([Title(TitleText(doc))], Somes(os[..i]), OptionToSeq(block));
      content := content + OptionToSeq(block);
    }
    assert VisitBlocks(elems, opts)[..|elems|] == VisitBlocks(elems, opts);
    return Success(content);
  }
}
