/**
 * Catalog ingestion (src/services/googleSheets.ts): the published sheet's
 * rows become products, and whatever goes wrong the storefront gets a
 * non-empty catalog, falling back to the bundled `MOCK_PRODUCTS`.
 *
 * The HTTP fetch, the CSV tokenising and `parseFloat` are not modelled:
 * the response, the parser's outcome and the price parser are inputs.
 */
module Catalog {
  import opened Types
  import opened Text

  /** One data row of the feed, keyed by the header row's column names. */
  datatype SheetRecord = SheetRecord(
    id: string,
    name: string,
    price: string,
    category: string,
    image: string,
    images: string,
    sizes: string,
    colors: string,
    description: string)

  /** The record the CSV parser makes of a data row whose cells follow the sheet's header row
      `id,name,price,category,image,images,sizes,colors,description`. The model takes every row to
      carry all nine columns; a cell past the end of a shorter row is read as empty here, where the
      parser would leave that field undefined. */
  function RecordOfRow(cells: seq<string>): (r: SheetRecord)
    ensures |cells| >= 9 ==>
              [r.id, r.name, r.price, r.category, r.image, r.images, r.sizes, r.colors, r.description] == cells[..9]
  {
    var cell := (k: nat) => if k < |cells| then cells[k] else "";
    SheetRecord(cell(0), cell(1), cell(2), cell(3), cell(4), cell(5), cell(6), cell(7), cell(8))
  }

  /** What the network gave back for the feed request. */
  datatype FeedResponse = Unreachable | NotOk | Body(text: string)

  /** What the CSV parser reported: its `error` callback, or `complete` with the rows. */
  datatype ParseOutcome = ParseError | Parsed(rows: seq<SheetRecord>)

  function MockProduct(id: string, name: string, cents: int, category: string, image: string,
                       sizes: Option<seq<string>>, colors: Option<seq<string>>): Product
  {
    Product(id, name, Cents(cents), category, image, None, sizes, colors, None)
  }

  /** No two products share an id. */
  predicate DistinctIds(products: seq<Product>)
  {
    forall i, j :: 0 <= i < j < |products| ==> products[i].id != products[j].id
  }

  /** The image links of the bundled catalog all share one shape. */
  function Unsplash(photo: string): string
  {
    "https://images.unsplash.com/photo-" + photo + "?q=80&w=800&auto=format&fit=crop"
  }

  /** The ids of the bundled catalog, in order. */
  const MockIds: seq<string> := ["1", "2", "3", "4", "5", "6", "7", "8", "9", "10"]

  /** The bundled baseline catalog (`MOCK_PRODUCTS`): ten products with ids "1" to "10". */
  function MockProducts(): (r: seq<Product>)
    ensures |r| == 10
    ensures forall i :: 0 <= i < |r| ==> r[i].id == MockIds[i] && r[i].name != ""
    ensures DistinctIds(r)
  {
    var r :=
    [ MockProduct("1", "Cashmere Wool Blend Coat", 24900, "Women",
        Unsplash("1544923246-77307dd654cb"),
        Some(["S", "M", "L"]), Some(["Beige", "Black"])),
      MockProduct("2", "Minimalist Leather Tote", 18900, "Accessories",
        Unsplash("1584917865442-de89df76afd3"),
        None, Some(["Brown", "Black"])),
      MockProduct("3", "Gold Plated Hoop Earrings", 4900, "Jewelry",
        Unsplash("1630019852942-f89202989a51"),
        None, None),
      MockProduct("4", "Mens Classic Wool Blazer", 29900, "Men",
        Unsplash("1507679799987-c73779587ccf"),
        Some(["M", "L", "XL"]), Some(["Navy", "Grey"])),
      MockProduct("5", "Silk Scarf", 8900, "Accessories",
        Unsplash("1586495777744-4413f21062fa"),
        None, Some(["Floral", "Abstract"])),
      MockProduct("6", "Black Denim Jacket", 12900, "Men",
        Unsplash("1521482819875-9c5c7cb1e5b4"),
        Some(["S", "M", "L", "XL"]), None),
      MockProduct("7", "Summer Linen Dress", 15900, "Women",
        Unsplash("1596783076218-bc71dd220263"),
        Some(["XS", "S", "M"]), Some(["White", "Sage"])),
      MockProduct("8", "Kids Cotton Tee Set", 3500, "Kids",
        Unsplash("1519457431-44ccd64a579b"),
        Some(["2T", "4T", "6T"]), None),
      MockProduct("9", "Premium Leather Belt", 5500, "Accessories",
        Unsplash("1551488852-d80429737887"),
        None, Some(["Brown", "Black", "Tan"])),
      MockProduct("10", "Aviator Sunglasses", 11000, "Accessories",
        Unsplash("1511499767150-a48a237f0083"),
        None, None) ];
    MockIdsDistinct();
    assert forall i :: 0 <= i < |r| ==> r[i].id == MockIds[i];
    r
  }

  /** The bundled ids are pairwise distinct. */
  lemma MockIdsDistinct()
    ensures forall i, j :: 0 <= i < j < |MockIds| ==> MockIds[i] != MockIds[j]
  {
    forall i, j | 0 <= i < j < |MockIds| ensures MockIds[i] != MockIds[j] {
      if j < 9 {
        assert MockIds[i][0] != MockIds[j][0];
      } else {
        assert |MockIds[i]| == 1;
      }
    }
  }

  /** `row.id && row.name`: the row filter. */
  predicate Keep(row: SheetRecord)
  {
    row.id != "" && row.name != ""
  }

  /** `cell ? cell.split(',') : []`, with no trimming of the pieces. */
  function SplitCell(cell: string): (r: seq<string>)
    ensures cell == "" ==> r == []
    ensures cell != "" ==> r != [] && FreeOf(r, ',') && Join(r, ",") == cell
  {
    if cell != "" then
      JoinSplit(cell, ',');
      Split(cell, ',')
    else []
  }

  /** The product a kept row becomes; the `images` column is not read. */
  function ToProduct(row: SheetRecord, parsePrice: string -> Price): (p: Product)
    ensures p.id == row.id && p.name == row.name && p.price == parsePrice(row.price) && p.category == row.category &&
            p.image == row.image && p.images.None? && p.description == Some(row.description)
    ensures p.sizes.Some? && FreeOf(p.sizes.value, ',') && Join(p.sizes.value, ",") == row.sizes
    ensures p.colors.Some? && FreeOf(p.colors.value, ',') && Join(p.colors.value, ",") == row.colors
  {
    Product(row.id, row.name, parsePrice(row.price), row.category, row.image, None,
            Some(SplitCell(row.sizes)), Some(SplitCell(row.colors)), Some(row.description))
  }

  /** `results.data.filter(row => row.id && row.name)`. */
  function KeptRows(rows: seq<SheetRecord>): (kept: seq<SheetRecord>)
    ensures |kept| <= |rows|
    ensures forall r :: r in kept <==> r in rows && Keep(r)
  {
    if rows == [] then []
    else (if Keep(rows[0]) then [rows[0]] else []) + KeptRows(rows[1..])
  }

  /** `.map(row => ...)` over the kept rows. */
  function MapRows(rows: seq<SheetRecord>, parsePrice: string -> Price): (products: seq<Product>)
    ensures |products| == |rows|
    ensures forall i :: 0 <= i < |rows| ==> products[i] == ToProduct(rows[i], parsePrice)
  {
    if rows == [] then [] else [ToProduct(rows[0], parsePrice)] + MapRows(rows[1..], parsePrice)
  }

  /** The products the parser's rows give, before the empty-sheet fallback. */
  function ProductsOf(rows: seq<SheetRecord>, parsePrice: string -> Price): (products: seq<Product>)
    ensures |products| <= |rows|
    ensures forall i :: 0 <= i < |products| ==> products[i].id != "" && products[i].name != ""
  {
    var kept := KeptRows(rows);
    assert forall i :: 0 <= i < |kept| ==> kept[i] in kept;
    MapRows(kept, parsePrice)
  }

  /** `fetchProducts()`: the live catalog when it has at least one kept row, the bundled one otherwise. */
  function FetchProducts(url: string, response: FeedResponse, parse: string -> ParseOutcome,
                         parsePrice: string -> Price): (r: seq<Product>)
    ensures |r| > 0
    ensures r == MockProducts() || exists text :: response == Body(text) && parse(text).Parsed? &&
                                     r == ProductsOf(parse(text).rows, parsePrice)
  {
    if Contains(url, "PLACEHOLDER") then MockProducts()
    else match response
      case Unreachable => MockProducts()
      case NotOk => MockProducts()
      case Body(text) =>
        match parse(text)
        case ParseError => MockProducts()
        case Parsed(rows) =>
          var products := ProductsOf(rows, parsePrice);
          if |products| == 0 then MockProducts() else products
  }

  // ----- Lemmas -----

  /** The filter keeps feed order: it distributes over concatenation of the feed. */
  lemma {:induction false} KeptRowsConcat(a: seq<SheetRecord>, b: seq<SheetRecord>)
    ensures KeptRows(a + b) == KeptRows(a) + KeptRows(b)
    decreases |a|
  {
    if a == [] {
      assert a + b == b;
    } else {
      assert (a + b)[0] == a[0];
      assert (a + b)[1..] == a[1..] + b;
      KeptRowsConcat(a[1..], b);
      var head := if Keep(a[0]) then [a[0]] else [];
      assert KeptRows(a + b) == head + (KeptRows(a[1..]) + KeptRows(b));
      assert head + (KeptRows(a[1..]) + KeptRows(b)) == (head + KeptRows(a[1..])) + KeptRows(b);
    }
  }

  /** A kept row carries its id, name, category, image and description through, splits the sizes
      and colors cells on commas without trimming, takes whatever price the parser gives
      (NaN included), and never reads the images column. */
  lemma IngestedFields(row: SheetRecord, parsePrice: string -> Price)
    requires Keep(row)
    ensures var p := ProductsOf([row], parsePrice);
      |p| == 1 && p[0].id == row.id && p[0].name == row.name && p[0].category == row.category &&
      p[0].image == row.image && p[0].description == Some(row.description) &&
      p[0].price == parsePrice(row.price) && p[0].images == None &&
      p[0].sizes.Some? && (row.sizes == "" ==> p[0].sizes.value == []) &&
      (row.sizes != "" ==> Join(p[0].sizes.value, ",") == row.sizes) &&
      p[0].colors.Some? && (row.colors == "" ==> p[0].colors.value == []) &&
      (row.colors != "" ==> Join(p[0].colors.value, ",") == row.colors)
  {
    assert KeptRows([row]) == [row];
  }

  /** A feed the network could not deliver, a non-ok status, or a parse error, gives the bundled catalog. */
  lemma FailuresFallBack(url: string, response: FeedResponse, parse: string -> ParseOutcome, parsePrice: string -> Price)
    requires response.Unreachable? || response.NotOk? || (response.Body? && parse(response.text).ParseError?)
    ensures FetchProducts(url, response, parse, parsePrice) == MockProducts()
  {
  }

  /** A placeholder feed location gives the bundled catalog without looking at any response. */
  lemma PlaceholderFallsBack(url: string, response: FeedResponse, parse: string -> ParseOutcome, parsePrice: string -> Price)
    requires Contains(url, "PLACEHOLDER")
    ensures FetchProducts(url, response, parse, parsePrice) == MockProducts()
  {
  }

  /** A parsed feed gives exactly its kept rows, in order, when it has one; the bundled catalog when it has none. */
  lemma ParsedFeed(url: string, text: string, parse: string -> ParseOutcome, parsePrice: string -> Price)
    requires !Contains(url, "PLACEHOLDER") && parse(text).Parsed?
    ensures var rows := parse(text).rows;
      FetchProducts(url, Body(text), parse, parsePrice) ==
        if KeptRows(rows) == [] then MockProducts() else MapRows(KeptRows(rows), parsePrice)
  {
  }

  /** Every live product has a non-empty id and name; a fetched catalog is never empty. */
  lemma FetchedProductsNamed(url: string, response: FeedResponse, parse: string -> ParseOutcome, parsePrice: string -> Price)
    ensures var r := FetchProducts(url, response, parse, parsePrice);
      |r| > 0 && forall i :: 0 <= i < |r| ==> r[i].id != "" && r[i].name != ""
  {
    var r := FetchProducts(url, response, parse, parsePrice);
    if !Contains(url, "PLACEHOLDER") && response.Body? && parse(response.text).Parsed?
       && KeptRows(parse(response.text).rows) != [] {
      var kept := KeptRows(parse(response.text).rows);
      assert r == MapRows(kept, parsePrice);
      forall i | 0 <= i < |r| ensures r[i].id != "" && r[i].name != "" {
        assert kept[i] in kept;
      }
    } else {
      assert r == MockProducts();
      forall i | 0 <= i < |r| ensures r[i].id != "" && r[i].name != "" {
        assert MockIds[i] != "";
      }
    }
  }
}
