/**
 * The fingerprint of an extracted page, `hash_content`: a canonical string
 * built block by block, lower-cased, and given to MD5.
 */
module Fingerprint {
  import opened Wrappers
  import opened Dom
  import opened Config
  import opened Extractor

  /** The `type` key of a block. */
  function TypeName(b: Block): string {
    match b
    case Title(_) => "title"
    case Header(_, _) => "header"
    case RunParagraph(_) => "paragraph"
    case TextParagraph(_) => "paragraph"
    case ListBlock(_) => "list"
  }

  /** Python's `str(n)` for a natural number. */
  function NatToString(n: nat): string
    decreases n
  {
    if n < 10 then [DigitChar(n)] else NatToString(n / 10) + [DigitChar(n % 10)]
  }

  /** Python's `str(i)` for an integer. */
  function IntToString(i: int): string {
    if i < 0 then "-" + NatToString(-i) else NatToString(i)
  }

  /** `item.get('level', '')` as it appears in the f-string: only a heading
      has a level. */
  function LevelField(b: Block): string {
    if b.Header? then IntToString(b.level) else ""
  }

  /** `item.get('text', '')`: run paragraphs and lists have no `text` key. */
  function TextField(b: Block): string {
    match b
    case Title(t) => t
    case Header(_, t) => t
    case TextParagraph(t) => t
    case RunParagraph(_) => ""
    case ListBlock(_) => ""
  }

  /** What one block appends to the canonical string. */
  function Key(b: Block): string {
    Lower(TypeName(b) + "_" + LevelField(b) + "_" + TextField(b))
  }

  /** The string `hash_content` passes to MD5: the keys of all blocks, in
      order. */
  function Canonical(bs: seq<Block>): string {
    ConcatMap(Key, bs)
  }

  /** `hash_content`: `md5` stands for `hashlib.md5(...).hexdigest()` of
      the encoded string. */
  method HashContent(content: seq<Block>, md5: string -> string) returns (digest: string)
    ensures digest == md5(Canonical(content))
  {
    var hashStr := "";
    for i := 0 to |content|
      invariant hashStr == Canonical(content[..i])
    {
      var item := content[i];
      assert content[..i + 1][..i] == content[..i];
      hashStr := hashStr + Lower(TypeName(item) + "_" + LevelField(item) + "_" + TextField(item));
    }
    assert content[..|content|] == content;
    digest := md5(hashStr);
  }

  // ---------------------------------------------------------------------
  // Properties

  /** The canonical string of a concatenation is the concatenation of the
      canonical strings. */
  lemma CanonicalAppend(a: seq<Block>, b: seq<Block>)
    ensures Canonical(a + b) == Canonical(a) + Canonical(b)
  {
    ConcatMapAppend(Key, a, b);
  }

  /** What of a block reaches the fingerprint: its kind, its level and its
      text in lower case; the runs of paragraphs and the items of lists are
      dropped. */
  function Erase(b: Block): Block {
    match b
    case Title(t) => Title(Lower(t))
    case Header(l, t) => Header(l, Lower(t))
    case RunParagraph(_) => RunParagraph([])
    case TextParagraph(t) => TextParagraph(Lower(t))
    case ListBlock(_) => ListBlock([])
  }

  lemma KeyErase(b: Block)
    ensures Key(Erase(b)) == Key(b)
  {
    var prefix := TypeName(b) + "_" + LevelField(b) + "_";
    assert TypeName(Erase(b)) + "_" + LevelField(Erase(b)) + "_" == prefix;
    LowerAppend(prefix, TextField(b));
    LowerAppend(prefix, Lower(TextField(b)));
    LowerIdempotent(TextField(b));
  }

  /** Pages whose blocks agree up to letter case, paragraph runs and list
      items have the same canonical string, hence the same fingerprint. */
  lemma {:induction false} CanonicalIgnoresCaseAndRuns(a: seq<Block>, b: seq<Block>)
    requires |a| == |b|
    requires forall i :: 0 <= i < |a| ==> Erase(a[i]) == Erase(b[i])
    ensures Canonical(a) == Canonical(b)
    decreases |a|
  {
    if a != [] {
      var n := |a| - 1;
      CanonicalIgnoresCaseAndRuns(a[..n], b[..n]);
      KeyErase(a[n]);
      KeyErase(b[n]);
    }
  }

  lemma CanonicalSingle(b: Block)
    ensures Canonical([b]) == Key(b)
  {
    assert [b][..0] == [];
    assert Canonical([b]) == Canonical([]) + Key(b);
  }

  lemma KeyTextParagraph(s: string)
    ensures Key(TextParagraph(s)) == Lower("paragraph__" + s)
  {
    assert TypeName(TextParagraph(s)) + "_" + LevelField(TextParagraph(s)) + "_" == "paragraph__";
  }

  /** The canonical string does not mark where one block ends: a page
      with paragraphs `x` and `y` and a page with the single paragraph
      `x + "paragraph__" + y` share a fingerprint. */
  lemma CanonicalAmbiguous(t: string, x: string, y: string)
    ensures var split := [Title(t), TextParagraph(x), TextParagraph(y)];
            var joined := [Title(t), TextParagraph(x + "paragraph__" + y)];
            split != joined && Canonical(split) == Canonical(joined)
  {
    var p := "paragraph__";
    var head, bX, bY, bXY := [Title(t)], TextParagraph(x), TextParagraph(y), TextParagraph(x + p + y);
    var split := [Title(t), bX, bY];
    var joined := [Title(t), bXY];
    assert |split| != |joined|;
    var h := Canonical(head);
    var kx, ky, kxy := Lower(p + x), Lower(p + y), Lower(p + (x + p + y));
    calc {
      Canonical(split);
      { assert split == (head + [bX]) + [bY]; }
      Canonical((head + [bX]) + [bY]);
      { CanonicalAppend(head + [bX], [bY]); }
      Canonical(head + [bX]) + Canonical([bY]);
      { CanonicalAppend(head, [bX]); }
      h + Canonical([bX]) + Canonical([bY]);
      { CanonicalSingle(bX); CanonicalSingle(bY); KeyTextParagraph(x); KeyTextParagraph(y); }
      h + kx + ky;
      { LowerAppend(p + x, p + y); assert p + (x + p + y) == (p + x) + (p + y); }
      h + kxy;
      { CanonicalSingle(bXY); KeyTextParagraph(x + p + y); }
      h + Canonical([bXY]);
      { CanonicalAppend(head, [bXY]); }
      Canonical(head + [bXY]);
      { assert joined == head + [bXY]; }
      Canonical(joined);
    }
  }
}
