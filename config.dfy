/**
 * The element options of `process_content` and the tag list it derives
 * from them before scanning the page body.
 */
module Config {

  /** The options dictionary. `headings` holds the enabled heading levels
      (`h1` … `h6`); `filterDivs` is the value of `filter_divs`, which is
      true when the key is absent. */
  datatype Options = Options(
    headings: set<int>,
    p: bool,
    div: bool,
    filterDivs: bool,
    lists: bool,
    headers: bool,
    footers: bool,
    span: bool)

  /** The digit character of a value in 0..9. */
  function DigitChar(d: int): char
    requires 0 <= d <= 9
  {
    ('0' as int + d) as char
  }

  /** The tag name `h<lvl>` of a heading level. */
  function HeadingName(lvl: int): string
    requires 1 <= lvl <= 6
  {
    "h" + [DigitChar(lvl)]
  }

  /** `int(name[1])` for a heading tag name. */
  function HeadingLevel(name: string): int {
    if |name| >= 2 then name[1] as int - '0' as int else 0
  }

  /** The heading tags for levels 1..n that are enabled, in level order. */
  function HeadingTagsUpTo(opts: Options, n: int): seq<string>
    requires 0 <= n <= 6
    decreases n
  {
    if n == 0 then []
    else HeadingTagsUpTo(opts, n - 1) + (if n in opts.headings then [HeadingName(n)] else [])
  }

  /** `header_tags`. */
  function HeadingTags(opts: Options): seq<string> {
    HeadingTagsUpTo(opts, 6)
  }

  /** The tags one option adds when it is on. */
  function IfOn(on: bool, names: seq<string>): seq<string> {
    if on then names else []
  }

  /** `tags`: the enabled headings, then `p`, `ul` and `ol`, `header`,
      `footer` and `span` as their options ask. */
  function SelectedTags(opts: Options): seq<string> {
    HeadingTags(opts)
    + IfOn(opts.p, ["p"])
    + IfOn(opts.lists, ["ul", "ol"])
    + IfOn(opts.headers, ["header"])
    + IfOn(opts.footers, ["footer"])
    + IfOn(opts.span, ["span"])
  }

  /** Whether `find_all(tags)` returns an element with this name: an empty
      name list puts no restriction on the name. */
  predicate Matches(name: string, tags: seq<string>) {
    tags == [] || name in tags
  }

  /** The heading tags are exactly the names of the enabled levels 1..6,
      and each one gives back its level. */
  lemma {:induction false} HeadingTagsUpToMembers(opts: Options, n: int, t: string)
    requires 0 <= n <= 6
    ensures t in HeadingTagsUpTo(opts, n)
        <==> exists lvl :: 1 <= lvl <= n && lvl in opts.headings && t == HeadingName(lvl)
    ensures t in HeadingTagsUpTo(opts, n) ==>
        |t| == 2 && 1 <= HeadingLevel(t) <= n && HeadingLevel(t) in opts.headings
        && t == HeadingName(HeadingLevel(t))
    decreases n
  {
    if n > 0 {
      HeadingTagsUpToMembers(opts, n - 1, t);
      if t == HeadingName(n) {
        assert HeadingLevel(t) == n;
      }
    }
  }

  /** Heading tag names and levels, for the levels that `process_content`
      enables. */
  lemma HeadingTagsMembers(opts: Options, t: string)
    ensures t in HeadingTags(opts)
        <==> exists lvl :: 1 <= lvl <= 6 && lvl in opts.headings && t == HeadingName(lvl)
    ensures t in HeadingTags(opts) ==>
        |t| == 2 && 1 <= HeadingLevel(t) <= 6 && HeadingLevel(t) in opts.headings
        && t == HeadingName(HeadingLevel(t))
  {
    HeadingTagsUpToMembers(opts, 6, t);
  }

  /** Which names the tag list holds; `div` is never one of them. */
  lemma SelectedTagsMembers(opts: Options, t: string)
    ensures t in SelectedTags(opts) <==>
        || t in HeadingTags(opts)
        || (opts.p && t == "p")
        || (opts.lists && (t == "ul" || t == "ol"))
        || (opts.headers && t == "header")
        || (opts.footers && t == "footer")
        || (opts.span && t == "span")
    ensures "div" !in SelectedTags(opts)
  {
    var s0 := HeadingTags(opts);
    var s1 := s0 + IfOn(opts.p, ["p"]);
    var s2 := s1 + IfOn(opts.lists, ["ul", "ol"]);
    var s3 := s2 + IfOn(opts.headers, ["header"]);
    var s4 := s3 + IfOn(opts.footers, ["footer"]);
    assert SelectedTags(opts) == s4 + IfOn(opts.span, ["span"]);
    forall u ensures u in SelectedTags(opts) <==>
        || u in s0
        || (opts.p && u == "p")
        || (opts.lists && (u == "ul" || u == "ol"))
        || (opts.headers && u == "header")
        || (opts.footers && u == "footer")
        || (opts.span && u == "span")
    {
      assert u in s1 <==> u in s0 || (opts.p && u == "p");
      assert u in s2 <==> u in s1 || (opts.lists && (u == "ul" || u == "ol"));
      assert u in s3 <==> u in s2 || (opts.headers && u == "header");
      assert u in s4 <==> u in s3 || (opts.footers && u == "footer");
    }
    HeadingTagsMembers(opts, "div");
  }

  /** The tag list is empty exactly when every element option is off. */
  lemma {:induction false} SelectedTagsEmpty(opts: Options)
    ensures SelectedTags(opts) == [] <==>
        (forall lvl :: 1 <= lvl <= 6 ==> lvl !in opts.headings)
        && !opts.p && !opts.lists && !opts.headers && !opts.footers && !opts.span
  {
    if exists lvl :: 1 <= lvl <= 6 && lvl in opts.headings {
      var lvl :| 1 <= lvl <= 6 && lvl in opts.headings;
      HeadingTagsMembers(opts, HeadingName(lvl));
    } else {
      forall t | t in HeadingTags(opts) ensures false {
        HeadingTagsMembers(opts, t);
      }
    }
  }

  /** The loop at the top of `process_content`: builds `tags` and
      `header_tags` from the options. */
  method BuildTags(opts: Options) returns (tags: seq<string>, headerTags: seq<string>)
    ensures headerTags == HeadingTags(opts)
    ensures tags == SelectedTags(opts)
  {
    tags, headerTags := [], [];
    for lvl := 1 to 7
      invariant headerTags == HeadingTagsUpTo(opts, lvl - 1)
      invariant tags == headerTags
    {
      if lvl in opts.headings {
        headerTags := headerTags + [HeadingName(lvl)];
        tags := tags + [HeadingName(lvl)];
      }
    }
    if opts.p { tags := tags + ["p"]; }
    assert tags == HeadingTags(opts) + IfOn(opts.p, ["p"]);
    if opts.lists { tags := tags + ["ul", "ol"]; }
    assert tags == HeadingTags(opts) + IfOn(opts.p, ["p"]) + IfOn(opts.lists, ["ul", "ol"]);
    if opts.headers { tags := tags + ["header"]; }
    assert tags == HeadingTags(opts) + IfOn(opts.p, ["p"]) + IfOn(opts.lists, ["ul", "ol"])
                   + IfOn(opts.headers, ["header"]);
    if opts.footers { tags := tags + ["footer"]; }
    assert tags == HeadingTags(opts) + IfOn(opts.p, ["p"]) + IfOn(opts.lists, ["ul", "ol"])
                   + IfOn(opts.headers, ["header"]) + IfOn(opts.footers, ["footer"]);
    if opts.span { tags := tags + ["span"]; }
  }
}
