/** The cards of the gallery (the loop over the filtered records): each record
    becomes a card in grid column `idx % 4`, with its image looked up at
    `imagens_plantas/<id>.png` and a "details" button keyed `btn_<id>`. */
module Cards {
  import opened Catalog
  import opened Gallery

  /** The gallery grid has four columns. */
  const COLUMNS := 4

  const IMAGE_DIR := "imagens_plantas/"
  const IMAGE_EXT := ".png"
  const BUTTON_PREFIX := "btn_"

  /** The image file of a record, as built on lines 283 and 328. */
  function ImagePath(id: string): (path: string)
    ensures |path| == |IMAGE_DIR| + |id| + |IMAGE_EXT|
    ensures path[|IMAGE_DIR|..|path| - |IMAGE_EXT|] == id
  {
    IMAGE_DIR + id + IMAGE_EXT
  }

  /** The id an image path was built from; `None` for a path of another shape. */
  function IdOfImagePath(path: string): (r: Option<string>)
    ensures r.Some? ==> ImagePath(r.value) == path
  {
    if |path| >= |IMAGE_DIR| + |IMAGE_EXT|
       && path[..|IMAGE_DIR|] == IMAGE_DIR
       && path[|path| - |IMAGE_EXT|..] == IMAGE_EXT
    then Some(path[|IMAGE_DIR|..|path| - |IMAGE_EXT|])
    else None
  }

  /** Every image path gives back the id it was built from. */
  lemma ImagePathRoundTrip(id: string)
    ensures IdOfImagePath(ImagePath(id)) == Some(id)
  {
    var path := ImagePath(id);
    assert path[..|IMAGE_DIR|] == IMAGE_DIR;
    assert path[|path| - |IMAGE_EXT|..] == IMAGE_EXT;
    assert path[|IMAGE_DIR|..|path| - |IMAGE_EXT|] == id;
  }

  /** Distinct records never share an image file. */
  lemma ImagePathInjective(a: string, b: string)
    requires ImagePath(a) == ImagePath(b)
    ensures a == b
  {
    ImagePathRoundTrip(a);
    ImagePathRoundTrip(b);
  }

  /** The widget key of a card's button (line 309). */
  function ButtonKey(id: string): (key: string)
    ensures |key| == |BUTTON_PREFIX| + |id|
    ensures key[|BUTTON_PREFIX|..] == id
  {
    BUTTON_PREFIX + id
  }

  /** Distinct records never share a button key. */
  lemma ButtonKeyInjective(a: string, b: string)
    requires ButtonKey(a) == ButtonKey(b)
    ensures a == b
  {
    assert a == ButtonKey(a)[|BUTTON_PREFIX|..];
    assert b == ButtonKey(b)[|BUTTON_PREFIX|..];
  }

  /** The image loader of lines 22-31: the base64 text of a file that exists
      and can be read, `None` otherwise. Which files are readable, and their
      encoded contents, are given as a map from path to text. */
  function LoadImage(files: map<string, string>, path: string): (r: Option<string>)
    ensures r.Some? <==> path in files
    ensures r.Some? ==> r.value == files[path]
  {
    if path in files then Some(files[path]) else None
  }

  /** One card of the grid; an absent image shows the placeholder. */
  datatype Card = Card(plant: Planta, column: nat, imagePath: string, image: Option<string>, buttonKey: string)

  /** The records a sequence of cards shows, in card order. */
  function CardPlants(cards: seq<Card>): seq<Planta>
  {
    seq(|cards|, i requires 0 <= i < |cards| => cards[i].plant)
  }

  /** The card of the record at position `idx` of the gallery. */
  function CardAt(p: Planta, idx: nat, files: map<string, string>): (card: Card)
    ensures card.plant == p && card.column < COLUMNS
    ensures IdOfImagePath(card.imagePath) == Some(p.id)
    ensures ShowsPlaceholder(card) <==> card.imagePath !in files || files[card.imagePath] == ""
    ensures !ShowsPlaceholder(card) ==> card.image == Some(files[card.imagePath])
  {
    ImagePathRoundTrip(p.id);
    Card(p, idx % COLUMNS, ImagePath(p.id), LoadImage(files, ImagePath(p.id)), ButtonKey(p.id))
  }

  /** The cards of a gallery, one per record, in gallery order. */
  function Layout(filtered: seq<Planta>, files: map<string, string>): (cards: seq<Card>)
    ensures |cards| == |filtered|
  {
    seq(|filtered|, i requires 0 <= i < |filtered| => CardAt(filtered[i], i, files))
  }

  /** The loop over `enumerate(filtered)` (lines 279-307), collecting the cards
      it renders. */
  method LayoutCards(filtered: seq<Planta>, files: map<string, string>) returns (cards: seq<Card>)
    ensures cards == Layout(filtered, files)
  {
    cards := [];
    var idx := 0;
    while idx < |filtered|
      invariant 0 <= idx <= |filtered|
      invariant |cards| == idx
      invariant forall i :: 0 <= i < idx ==> cards[i] == CardAt(filtered[i], i, files)
    {
      cards := cards + [CardAt(filtered[idx], idx, files)];
      idx := idx + 1;
    }
  }

  /** The grid is filled row by row: the first card goes to the first column,
      each next card to the next column, wrapping after the fourth. */
  lemma LayoutFillsRows(filtered: seq<Planta>, files: map<string, string>)
    ensures |Layout(filtered, files)| == |filtered|
    ensures forall i :: 0 <= i < |filtered| ==> Layout(filtered, files)[i].plant == filtered[i]
    ensures CardPlants(Layout(filtered, files)) == filtered
    ensures forall i :: 0 <= i < |filtered| ==> Layout(filtered, files)[i].column < COLUMNS
    ensures |filtered| > 0 ==> Layout(filtered, files)[0].column == 0
    ensures forall i :: 0 <= i < |filtered| - 1 ==>
      Layout(filtered, files)[i + 1].column == (Layout(filtered, files)[i].column + 1) % COLUMNS
  {
  }

  /** The card shows the placeholder instead of an image when the loader gave
      nothing or an empty text (line 286 tests the text's truth value). */
  predicate ShowsPlaceholder(card: Card)
    ensures !ShowsPlaceholder(card) <==> card.image.Some? && |card.image.value| > 0
  {
    card.image.None? || card.image.value == ""
  }

  /** A card's image is its own record's file; it shows the placeholder exactly
      when that file is missing or empty, and otherwise shows that file. */
  lemma LayoutImages(filtered: seq<Planta>, files: map<string, string>, i: int)
    requires 0 <= i < |filtered|
    ensures var card := Layout(filtered, files)[i];
      IdOfImagePath(card.imagePath) == Some(filtered[i].id) &&
      (ShowsPlaceholder(card) <==> card.imagePath !in files || files[card.imagePath] == "") &&
      (!ShowsPlaceholder(card) ==> card.image == Some(files[card.imagePath]))
  {
    ImagePathRoundTrip(filtered[i].id);
  }

  /** Records with distinct ids get distinct image files and button keys. */
  lemma LayoutKeysDistinct(filtered: seq<Planta>, files: map<string, string>)
    requires DistinctIds(filtered)
    ensures forall i, j :: 0 <= i < j < |filtered| ==>
      Layout(filtered, files)[i].buttonKey != Layout(filtered, files)[j].buttonKey &&
      Layout(filtered, files)[i].imagePath != Layout(filtered, files)[j].imagePath
  {
    var cards := Layout(filtered, files);
    forall i, j | 0 <= i < j < |filtered|
      ensures cards[i].buttonKey != cards[j].buttonKey && cards[i].imagePath != cards[j].imagePath
    {
      if cards[i].buttonKey == cards[j].buttonKey {
        ButtonKeyInjective(filtered[i].id, filtered[j].id);
      }
      if cards[i].imagePath == cards[j].imagePath {
        ImagePathInjective(filtered[i].id, filtered[j].id);
      }
    }
  }

  /** Whatever the category and search text, the cards of a gallery over a
      catalogue with distinct ids (as `PLANTAS` is) have pairwise distinct
      button keys, as Streamlit's widget keys must be. */
  lemma GalleryButtonKeysDistinct(ps: seq<Planta>, cat: string, search: string, files: map<string, string>)
    requires DistinctIds(ps)
    ensures var cards := Layout(GalleryFilter(ps, cat, search), files);
      forall i, j :: 0 <= i < j < |cards| ==> cards[i].buttonKey != cards[j].buttonKey
  {
    GalleryFilterIsSubsequence(ps, cat, search);
    LayoutKeysDistinct(GalleryFilter(ps, cat, search), files);
  }
}
