/** The blendshape panel: one list item per category of the first face's
    blendshape scores, labelled with the category's display name or, when that
    is empty, its category name. The item markup and the score formatting
    (`score * 100`, `toFixed(4)`) are not modelled; an item keeps the raw score. */
module BlendShapes {
  /** One blendshape category as the detector reports it. */
  datatype Category = Category(categoryName: string, displayName: string, score: real)

  /** The blendshape categories of one face. */
  datatype Classifications = Classifications(categories: seq<Category>)

  /** One `<li>` of the panel: its label and the score behind its bar. */
  datatype PanelItem = PanelItem(text: string, score: real)

  /** `shape.displayName || shape.categoryName`: the empty string is falsy. */
  function Label(c: Category): (r: string)
    ensures r == c.displayName || r == c.categoryName
    ensures c.displayName != [] ==> r == c.displayName
    ensures r == [] <==> c.displayName == [] && c.categoryName == []
  {
    if c.displayName != [] then c.displayName else c.categoryName
  }

  function Item(c: Category): PanelItem {
    PanelItem(Label(c), c.score)
  }

  /** The items built for `categories`, one per category, in order. */
  function Items(categories: seq<Category>): (r: seq<PanelItem>)
    ensures |r| == |categories|
    ensures forall i :: 0 <= i < |categories| ==> r[i] == Item(categories[i])
  {
    if categories == [] then []
    else Items(categories[..|categories| - 1]) + [Item(categories[|categories| - 1])]
  }

  /** What the panel shows after `drawBlendShapes(el, blendShapes)`. */
  function PanelAfter(current: seq<PanelItem>, blendShapes: seq<Classifications>): seq<PanelItem> {
    if |blendShapes| == 0 then current else Items(blendShapes[0].categories)
  }

  /** An empty blendshape list leaves the panel as it was. */
  lemma EmptyLeavesPanel(current: seq<PanelItem>)
    ensures PanelAfter(current, []) == current
  {
  }

  /** Only the first face counts: the faces after it never change the panel. */
  lemma OnlyFirstFace(current: seq<PanelItem>, blendShapes: seq<Classifications>, more: seq<Classifications>)
    requires |blendShapes| > 0
    ensures PanelAfter(current, blendShapes + more) == PanelAfter(current, blendShapes)
    ensures PanelAfter(current, blendShapes) == PanelAfter([], blendShapes[..1])
  {
    assert (blendShapes + more)[0] == blendShapes[0];
  }

  /** With at least one face the panel lists that face's categories, one item
      each, in order, with the label fallback. */
  lemma PanelListsFirstFace(current: seq<PanelItem>, blendShapes: seq<Classifications>)
    requires |blendShapes| > 0
    ensures var cats, items := blendShapes[0].categories, PanelAfter(current, blendShapes);
      |items| == |cats| &&
      forall i :: 0 <= i < |cats| ==>
        items[i].score == cats[i].score &&
        (items[i].text == if cats[i].displayName != [] then cats[i].displayName else cats[i].categoryName)
  {
  }

  /** The panel element; its items are what `innerHTML` is set to. */
  class Panel {
    var items: seq<PanelItem>

    constructor (initial: seq<PanelItem>)
      ensures items == initial
    {
      items := initial;
    }
  }

  method DrawBlendShapes(el: Panel, blendShapes: seq<Classifications>)
    modifies el
    ensures el.items == PanelAfter(old(el.items), blendShapes)
  {
    if |blendShapes| == 0 {
      return;
    }
    var categories := blendShapes[0].categories;
    var built: seq<PanelItem> := [];
    var i := 0;
    while i < |categories|
      invariant 0 <= i <= |categories|
      invariant built == Items(categories[..i])
    {
      assert categories[..i + 1][..i] == categories[..i];
      built := built + [Item(categories[i])];
      i := i + 1;
    }
    assert categories[..i] == categories;
    el.items := built;
  }
}
