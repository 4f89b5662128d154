/** The catalog context that the chat handler appends to the system prompt
    (server.js lines 52 and 59-64). The product list is whatever the storefront
    returned for this request; it is an input here. */
module Catalog {
  import opened Text

  /** A product as the storefront reports it; the price is display-ready text. */
  datatype Product = Product(title: string, price: string, url: string)

  /** The heading line of a non-empty listing, "Catálogo real y actual de
      Kanopy (llaveros disponibles):", written in four pieces so that facts
      about its characters are proved piece by piece. */
  const CatalogTitle: string := "Catálogo real " + "y actual de " + "Kanopy (llaveros " + "disponibles):"

  /** What precedes the product lines: a blank line, the heading, a newline. */
  const CatalogHeader: string := "\n\n" + CatalogTitle + "\n"

  /** What replaces the listing when the storefront returned no products. */
  const ExpandingNote: string :=
    "\n\nNota interna: El catálogo se está ampliando, indica que por el momento no puedes mostrar los productos sin inventar opciones."

  /** One listing line: `- title | price | url`. */
  function ProductLine(p: Product): string
  {
    "- " + p.title + " | " + p.price + " | " + p.url
  }

  /** One listing line per product, in the storefront's order. */
  function ProductLines(products: seq<Product>): (lines: seq<string>)
    ensures |lines| == |products|
    ensures forall i :: 0 <= i < |products| ==> lines[i] == ProductLine(products[i])
  {
    seq(|products|, i requires 0 <= i < |products| => ProductLine(products[i]))
  }

  /** The catalog context: empty without product intent; otherwise the header
      and the listing, or the note when there is nothing to list. */
  function CatalogContext(wantsProducts: bool, products: seq<Product>): string
  {
    if !wantsProducts then ""
    else if |products| > 0 then CatalogHeader + JoinLines(ProductLines(products))
    else ExpandingNote
  }

  /** The three shapes of the context, and when each one arises. */
  lemma CatalogContextCases(wantsProducts: bool, products: seq<Product>)
    ensures CatalogContext(wantsProducts, products) == "" <==> !wantsProducts
    ensures wantsProducts && |products| == 0 ==>
      CatalogContext(wantsProducts, products) == ExpandingNote
    ensures wantsProducts && |products| > 0 ==>
      |CatalogContext(wantsProducts, products)| > |CatalogHeader| &&
      CatalogContext(wantsProducts, products)[..|CatalogHeader|] == CatalogHeader
  {
    if wantsProducts && |products| > 0 {
      var body := JoinLines(ProductLines(products));
      assert |body| >= |ProductLine(products[0])| by { JoinLinesHasLine(ProductLines(products), 0); }
      assert (CatalogHeader + body)[..|CatalogHeader|] == CatalogHeader;
    }
  }

  /** A field of a product holds no newline. */
  predicate SingleLine(p: Product)
  {
    '\n' !in p.title && '\n' !in p.price && '\n' !in p.url
  }

  /** Every joined line occurs in the joined text. */
  lemma {:induction false} JoinLinesHasLine(xs: seq<string>, k: nat)
    requires k < |xs|
    ensures Contains(JoinLines(xs), xs[k])
    decreases |xs|
  {
    var j := JoinLines(xs);
    if |xs| == 1 {
      assert OccursAt(j, xs[k], 0);
    } else if k == 0 {
      assert j[0..|xs[0]|] == xs[0];
      assert OccursAt(j, xs[k], 0);
    } else {
      JoinLinesHasLine(xs[1..], k - 1);
      var tail := JoinLines(xs[1..]);
      var i :| OccursAt(tail, xs[k], i);
      var off := |xs[0]| + 1;
      assert j == (xs[0] + "\n") + tail;
      assert j[off + i..off + i + |xs[k]|] == tail[i..i + |xs[k]|];
      assert OccursAt(j, xs[k], off + i);
    }
  }

  /** With product intent, every product's line (and so its title, price and
      link) appears in the context. */
  lemma ContextListsEveryProduct(products: seq<Product>, k: nat)
    requires k < |products|
    ensures Contains(CatalogContext(true, products), ProductLine(products[k]))
  {
    var lines := ProductLines(products);
    JoinLinesHasLine(lines, k);
    var body := JoinLines(lines);
    var i :| OccursAt(body, lines[k], i);
    var ctx := CatalogContext(true, products);
    assert ctx == CatalogHeader + body;
    assert ctx[|CatalogHeader| + i..|CatalogHeader| + i + |lines[k]|] == body[i..i + |lines[k]|];
    assert OccursAt(ctx, ProductLine(products[k]), |CatalogHeader| + i);
  }

  /** The heading, taken in four pieces, holds no newline. */
  lemma TitleIsSingleLine()
    ensures '\n' !in CatalogTitle
  {
    TitlePieceHasNoNewline1();
    TitlePieceHasNoNewline2();
    TitlePieceHasNoNewline3();
    TitlePieceHasNoNewline4();
  }

  lemma TitlePieceHasNoNewline1() ensures '\n' !in "Catálogo real " { }
  lemma TitlePieceHasNoNewline2() ensures '\n' !in "y actual de " { }
  lemma TitlePieceHasNoNewline3() ensures '\n' !in "Kanopy (llaveros " { }
  lemma TitlePieceHasNoNewline4() ensures '\n' !in "disponibles):" { }

  /** A product with single-line fields gives a single listing line. */
  lemma ProductLineIsSingleLine(p: Product)
    requires SingleLine(p)
    ensures '\n' !in ProductLine(p)
  {
  }

  /** Two leading newlines give two empty pieces. */
  lemma SplitAfterBlankLine(rest: string)
    ensures SplitLines("\n\n" + rest) == ["", ""] + SplitLines(rest)
  {
    assert "\n\n" + rest == "\n" + ("\n" + rest);
    SplitAfterNewline("\n" + rest);
    SplitAfterNewline(rest);
  }

  /** Read line by line, a non-empty listing is two blank lines, the heading,
      and then exactly one line per product in the storefront's order: no other
      product text appears. (Fields must be single-line for lines to be
      told apart.) */
  lemma ContextLinesAreProductLines(products: seq<Product>)
    requires |products| > 0
    requires forall i :: 0 <= i < |products| ==> SingleLine(products[i])
    ensures SplitLines(CatalogContext(true, products)) ==
      ["", "", CatalogTitle] + ProductLines(products)
  {
    var lines := ProductLines(products);
    var body := JoinLines(lines);
    assert SplitLines(CatalogTitle + "\n" + body) == [CatalogTitle] + lines by {
      forall i | 0 <= i < |lines| ensures '\n' !in lines[i] {
        ProductLineIsSingleLine(products[i]);
      }
      SplitJoin(lines);
      TitleIsSingleLine();
      SplitLineThen(CatalogTitle, body);
    }
    assert CatalogContext(true, products) == "\n\n" + (CatalogTitle + "\n" + body);
    SplitAfterBlankLine(CatalogTitle + "\n" + body);
  }
}
