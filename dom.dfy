/**
 * The parsed page as BeautifulSoup presents it to the extractor: a tree of
 * text nodes and elements, plus the handful of library queries the
 * extractor relies on (`.string`, `get_text`, `find`, `find_all`,
 * `str.strip`, `str.lower`, substring search and `str.join`).
 */
module Dom {
  import opened Wrappers

  /** A node of the parsed document. An element keeps its tag name, its
      `class` attribute as the list of class names, its `id` (the empty
      string when absent) and its children in document order. */
  datatype Node =
    | Text(text: string)
    | Elem(name: string, classes: seq<string>, id: string, kids: seq<Node>)

  /** An element reached by a traversal, with its ancestors listed nearest
      first; the last ancestor is the document root. */
  datatype Visit = Visit(elem: Node, ancestors: seq<Node>)

  /** The root of a parsed document: the BeautifulSoup object, whose name
      is `[document]` and which carries no class and no id, over the
      page's top-level nodes. */
  function Document(top: seq<Node>): Node {
    Elem("[document]", [], "", top)
  }

  /** Tag name; a text node has none. */
  function NameOf(n: Node): string {
    if n.Elem? then n.name else ""
  }

  function ClassesOf(n: Node): seq<string> {
    if n.Elem? then n.classes else []
  }

  function IdOf(n: Node): string {
    if n.Elem? then n.id else ""
  }

  function KidsOf(n: Node): seq<Node> {
    if n.Elem? then n.kids else []
  }

  /** The element itself followed by its ancestors: the path an upward
      `current = current.parent` walk takes. */
  function Chain(v: Visit): (c: seq<Node>)
    ensures |c| == |v.ancestors| + 1 && c[0] == v.elem
  {
    [v.elem] + v.ancestors
  }

  // ---------------------------------------------------------------------
  // Characters and strings

  /** Python's `str.isspace`. */
  predicate IsSpace(c: char) {
    || c == ' ' || c == '\t' || c == '\n' || c == '\r'
    || c == '\U{b}' || c == '\U{c}'
    || ('\U{1c}' <= c <= '\U{1f}')
    || c == '\U{85}' || c == '\U{a0}' || c == '\U{1680}'
    || ('\U{2000}' <= c <= '\U{200a}')
    || c == '\U{2028}' || c == '\U{2029}' || c == '\U{202f}'
    || c == '\U{205f}' || c == '\U{3000}'
  }

  function TrimLeft(s: string): string
    decreases |s|
  {
    if s != [] && IsSpace(s[0]) then TrimLeft(s[1..]) else s
  }

  function TrimRight(s: string): string
    decreases |s|
  {
    if s != [] && IsSpace(s[|s| - 1]) then TrimRight(s[..|s| - 1]) else s
  }

  /** Python's `str.strip()`: drop leading and trailing whitespace. */
  function Strip(s: string): string {
    TrimRight(TrimLeft(s))
  }

  /** A string of whitespace strips to the empty string. */
  lemma {:induction false} StripAllSpace(s: string)
    requires forall i :: 0 <= i < |s| ==> IsSpace(s[i])
    ensures Strip(s) == ""
  {
    TrimLeftAllSpace(s);
  }

  lemma {:induction false} TrimLeftAllSpace(s: string)
    requires forall i :: 0 <= i < |s| ==> IsSpace(s[i])
    ensures TrimLeft(s) == ""
    decreases |s|
  {
    if s != [] {
      TrimLeftAllSpace(s[1..]);
    }
  }

  /** `str.lower()` on one character (ASCII letters only). */
  function LowerChar(c: char): char {
    if 'A' <= c <= 'Z' then (c as int + 32) as char else c
  }

  /** `str.lower()`, character by character. */
  function Lower(s: string): (r: string)
    ensures |r| == |s|
  {
    seq(|s|, i requires 0 <= i < |s| => LowerChar(s[i]))
  }

  /** Lowering distributes over concatenation. */
  lemma LowerAppend(a: string, b: string)
    ensures Lower(a + b) == Lower(a) + Lower(b)
  {
  }

  /** Lowering twice is lowering once. */
  lemma LowerIdempotent(s: string)
    ensures Lower(Lower(s)) == Lower(s)
  {
  }

  /** `needle` occurs in `hay` starting at position `k`. */
  predicate OccursAt(hay: string, needle: string, k: int) {
    0 <= k <= |hay| - |needle| && hay[k..k + |needle|] == needle
  }

  /** Python's `needle in hay` on strings: substring search, trying each
      start position from the left. */
  predicate Contains(hay: string, needle: string)
    decreases |hay|
  {
    |needle| <= |hay| && (hay[..|needle|] == needle || (hay != [] && Contains(hay[1..], needle)))
  }

  /** The search succeeds exactly when the needle occurs at some position. */
  lemma {:induction false} ContainsOccurs(hay: string, needle: string)
    ensures Contains(hay, needle) <==> exists k :: OccursAt(hay, needle, k)
    decreases |hay|
  {
    if |needle| <= |hay| && hay[..|needle|] == needle {
      assert OccursAt(hay, needle, 0);
    }
    if |needle| <= |hay| && hay != [] {
      ContainsOccurs(hay[1..], needle);
      if exists k :: OccursAt(hay[1..], needle, k) {
        var k :| OccursAt(hay[1..], needle, k);
        assert hay[k + 1..k + 1 + |needle|] == hay[1..][k..k + |needle|];
        assert OccursAt(hay, needle, k + 1);
      }
      if exists k :: OccursAt(hay, needle, k) {
        var k :| OccursAt(hay, needle, k);
        if k > 0 {
          assert hay[1..][k - 1..k - 1 + |needle|] == hay[k..k + |needle|];
          assert OccursAt(hay[1..], needle, k - 1);
        }
      }
    }
  }

  /** Python's `sep.join(parts)`. */
  function Join(sep: string, parts: seq<string>): string
    decreases |parts|
  {
    if parts == [] then ""
    else if |parts| == 1 then parts[0]
    else parts[0] + sep + Join(sep, parts[1..])
  }

  /** Every string stripped, blank ones dropped, in order: the strings
      `get_text(strip=True)` and the div branch put together. */
  function NonBlank(ts: seq<string>): (r: seq<string>)
    ensures forall t :: t in r ==> t != ""
    decreases |ts|
  {
    if ts == [] then []
    else (if Strip(ts[0]) != "" then [Strip(ts[0])] else []) + NonBlank(ts[1..])
  }

  // ---------------------------------------------------------------------
  // Text of a subtree

  /** Every text node under `n`, in document order. */
  function Texts(n: Node): seq<string>
    decreases n
  {
    match n
    case Text(s) => [s]
    case Elem(_, _, _, kids) => TextsOf(kids)
  }

  function TextsOf(kids: seq<Node>): seq<string>
    decreases kids
  {
    if kids == [] then [] else Texts(kids[0]) + TextsOf(kids[1..])
  }

  /** `n.get_text(separator=sep, strip=True)`. */
  function GetText(n: Node, sep: string): string {
    Join(sep, NonBlank(Texts(n)))
  }

  /** The direct text-node children of a list of children
      (`find_all(text=True, recursive=False)`). */
  function DirectStrings(kids: seq<Node>): seq<string>
    decreases |kids|
  {
    if kids == [] then []
    else (if kids[0].Text? then [kids[0].text] else []) + DirectStrings(kids[1..])
  }

  /** BeautifulSoup's `.string`: a text node is its own string; an element
      with exactly one child has that child's string; any other element
      has none. */
  function StringOf(n: Node): Option<string>
    decreases n
  {
    match n
    case Text(s) => Some(s)
    case Elem(_, _, _, kids) => if |kids| == 1 then StringOf(kids[0]) else None
  }

  // ---------------------------------------------------------------------
  // Traversal

  /** The elements strictly below `n` in document (pre-)order, each with its
      ancestor chain; `ancestors` is the chain of `n` itself. */
  function Descendants(n: Node, ancestors: seq<Node>): seq<Visit>
    decreases n
  {
    match n
    case Text(_) => []
    case Elem(_, _, _, kids) => ForestVisits(kids, [n] + ancestors)
  }

  function ForestVisits(kids: seq<Node>, ancestors: seq<Node>): seq<Visit>
    decreases kids
  {
    if kids == [] then []
    else
      (if kids[0].Elem? then [Visit(kids[0], ancestors)] else [])
      + Descendants(kids[0], ancestors)
      + ForestVisits(kids[1..], ancestors)
  }

  /** The first visit whose element carries the tag `name`. */
  function FirstNamed(vs: seq<Visit>, name: string): (r: Option<Visit>)
    ensures r.Some? ==> r.value in vs && NameOf(r.value.elem) == name
    ensures r.None? ==> forall v :: v in vs ==> NameOf(v.elem) != name
    decreases |vs|
  {
    if vs == [] then None
    else if NameOf(vs[0].elem) == name then Some(vs[0])
    else FirstNamed(vs[1..], name)
  }

  /** `n.find(name)`: the first element named `name` strictly below `n`. */
  function Find(n: Node, ancestors: seq<Node>, name: string): Option<Visit> {
    FirstNamed(Descendants(n, ancestors), name)
  }

  lemma {:induction false} DescendantsAreElems(n: Node, ancestors: seq<Node>)
    ensures forall v :: v in Descendants(n, ancestors) ==> v.elem.Elem?
    decreases n
  {
    match n
    case Text(_) =>
    case Elem(_, _, _, kids) => ForestVisitsAreElems(kids, [n] + ancestors);
  }

  lemma {:induction false} ForestVisitsAreElems(kids: seq<Node>, ancestors: seq<Node>)
    ensures forall v :: v in ForestVisits(kids, ancestors) ==> v.elem.Elem?
    decreases kids
  {
    if kids != [] {
      DescendantsAreElems(kids[0], ancestors);
      ForestVisitsAreElems(kids[1..], ancestors);
    }
  }
}
