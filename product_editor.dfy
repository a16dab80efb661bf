/**
 * The product editor's form rules (src/pages/Admin/ProductEditor.tsx): the
 * reset on open, the image gallery of at most five links whose first entry
 * is the primary image, the comma-list fields, and the product handed to the
 * dashboard on submit.
 */
module ProductEditor {
  import opened Types
  import opened Text

  /** The gallery's capacity. */
  const MaxImages: nat := 5

  /** The form state, a partial product. The reset effect always sets name, price and category. */
  datatype FormData = FormData(
    id: Option<string>,
    name: string,
    price: Price,
    category: string,
    image: Option<string>,
    images: Option<seq<string>>,
    sizes: Option<seq<string>>,
    colors: Option<seq<string>>,
    description: Option<string>)

  /** The reset effect: the edited product's fields, or an empty form in category 'Women'. */
  function ResetForm(product: Option<Product>): (f: FormData)
    ensures product.None? ==> f.name == "" && f.price == Cents(0) && f.category == "Women" &&
                              Gallery(f) == [] && f.sizes == Some([]) && f.colors == Some([]) &&
                              f.image.None? && f.id.None?
    ensures product.Some? ==> var p := product.value;
              f.id == Some(p.id) && f.name == p.name && f.price == p.price && f.category == p.category &&
              f.image == Some(p.image) && f.images == p.images && f.sizes == p.sizes &&
              f.colors == p.colors && f.description == p.description
  {
    match product
    case Some(p) => FormData(Some(p.id), p.name, p.price, p.category, Some(p.image), p.images, p.sizes, p.colors, p.description)
    case None => FormData(None, "", Cents(0), "Women", None, Some([]), Some([]), Some([]), Some(""))
  }

  /** `formData.images || []`. */
  function Gallery(f: FormData): seq<string>
  {
    f.images.GetOr([])
  }

  /** The primary image is the first gallery entry, or unset or '' when the gallery is empty. */
  predicate PrimaryFollowsGallery(f: FormData)
  {
    if Gallery(f) != [] then f.image == Some(Gallery(f)[0]) else f.image in {None, Some("")}
  }

  /** The form after `handleAddImage(url)`. */
  function AddImage(f: FormData, url: string): (g: FormData)
    ensures Gallery(g) == if url != "" && |Gallery(f)| < MaxImages then Gallery(f) + [url] else Gallery(f)
    ensures |Gallery(f)| <= MaxImages ==> |Gallery(g)| <= MaxImages
  {
    var current := Gallery(f);
    if url == "" then f
    else if |current| >= MaxImages then f
    else f.(images := Some(current + [url]), image := if |current| == 0 then Some(url) else f.image)
  }

  /** `list.filter((_, i) => i !== k)`: the list without its `k`th element, or unchanged when `k` is out of range. */
  function RemoveAt(s: seq<string>, k: int): (r: seq<string>)
    ensures 0 <= k < |s| ==> r == s[..k] + s[k + 1..]
    ensures !(0 <= k < |s|) ==> r == s
  {
    if s == [] then []
    else
      var rest := RemoveAt(s[1..], k - 1);
      if k == 0 then
        assert s[..0] + s[1..] == s[1..];
        rest
      else
        assert 0 < k < |s| ==> [s[0]] + (s[1..][..k - 1] + s[1..][k..]) == s[..k] + s[k + 1..];
        assert !(0 <= k < |s|) ==> [s[0]] + s[1..] == s;
        [s[0]] + rest
  }

  /** The form after `handleRemoveImage(k)`: the primary image becomes `newImages[0] || ''`. */
  function RemoveImage(f: FormData, k: int): (g: FormData)
    ensures |Gallery(g)| == if 0 <= k < |Gallery(f)| then |Gallery(f)| - 1 else |Gallery(f)|
    ensures PrimaryFollowsGallery(g)
  {
    var remaining := RemoveAt(Gallery(f), k);
    f.(images := Some(remaining), image := Some(if remaining != [] then remaining[0] else ""))
  }

  /** The product `handleSubmit` passes on: the edited product's id when it has one, else a fresh id;
      `image` is `images[0] || image || ''`. */
  function SubmitProduct(f: FormData, product: Option<Product>, freshId: string): (p: Product)
    ensures freshId != "" ==> p.id != ""
    ensures p.name == f.name && p.price == f.price && p.category == f.category && p.images == f.images &&
            p.sizes == f.sizes && p.colors == f.colors && p.description == f.description
    ensures p.image == "" || p.image in Gallery(f) || Some(p.image) == f.image
  {
    var id := if product.Some? && product.value.id != "" then product.value.id else freshId;
    var gallery := Gallery(f);
    var image :=
      if gallery != [] && gallery[0] != "" then gallery[0]
      else if f.image.Some? && f.image.value != "" then f.image.value
      else "";
    Product(id, f.name, f.price, f.category, image, f.images, f.sizes, f.colors, f.description)
  }

  // ----- The comma-list fields -----

  /** `.map(s => s.trim())`. */
  function TrimAll(parts: seq<string>): (r: seq<string>)
    ensures |r| == |parts|
    ensures forall k :: 0 <= k < |parts| ==> r[k] == Trim(parts[k])
  {
    seq(|parts|, k requires 0 <= k < |parts| => Trim(parts[k]))
  }

  /** Every trimmed piece is trimmed at both ends, and trimming never introduces a comma. */
  lemma TrimAllFree(parts: seq<string>)
    requires FreeOf(parts, ',')
    ensures forall x :: x in TrimAll(parts) ==> IsTrimmed(x) && ',' !in x
  {
    var r := TrimAll(parts);
    forall x | x in r ensures IsTrimmed(x) && ',' !in x {
      var k :| 0 <= k < |r| && r[k] == x;
      assert ',' !in parts[k];
    }
  }

  /** `.filter(Boolean)` on strings: drops the empty ones. */
  function DropEmpty(parts: seq<string>): (r: seq<string>)
    ensures forall x :: x in r <==> x in parts && x != ""
  {
    if parts == [] then [] else (if parts[0] == "" then [] else [parts[0]]) + DropEmpty(parts[1..])
  }

  /** `text.split(',').map(s => s.trim()).filter(Boolean)`: the items of a sizes or colors field. */
  function ParseList(text: string): (items: seq<string>)
    ensures forall x :: x in items ==> x != "" && IsTrimmed(x) && ',' !in x
  {
    var parts := Split(text, ',');
    var trimmed := TrimAll(parts);
    TrimAllFree(parts);
    var items := DropEmpty(trimmed);
    assert forall x :: x in items ==> x in trimmed && x != "";
    items
  }

  /** The item lists the field can show and read back: non-empty, trimmed, comma-free items. */
  predicate CleanItems(items: seq<string>)
  {
    forall k :: 0 <= k < |items| ==> items[k] != "" && IsTrimmed(items[k]) && ',' !in items[k]
  }

  /** The text `items.join(', ')` shown in the field, with a space put back after each comma. */
  function Padded(items: seq<string>): (r: seq<string>)
    ensures |r| == |items|
    ensures forall k :: 0 <= k < |items| ==> r[k] == if k == 0 then items[k] else [' '] + items[k]
  {
    if items == [] then [] else [items[0]] + seq(|items| - 1, k requires 0 <= k < |items| - 1 => [' '] + items[k + 1])
  }

  lemma {:induction false} JoinPadded(items: seq<string>)
    ensures Join(items, ", ") == Join(Padded(items), ",")
    decreases |items|
  {
    if |items| > 1 {
      var rest := items[1..];
      JoinPadded(rest);
      var p := Padded(items);
      JoinCons(p[0], p[1..], ",");
      assert items == [items[0]] + rest;
      JoinCons(items[0], rest, ", ");
      assert p == [items[0]] + p[1..];
      PaddedTail(items);
    }
  }

  /** Behind the first item, each item carries the space of `", "`. */
  lemma PaddedTail(items: seq<string>)
    requires |items| > 1
    ensures Join(Padded(items)[1..], ",") == [' '] + Join(Padded(items[1..]), ",")
  {
    var tail := Padded(items)[1..];
    var pr := Padded(items[1..]);
    if |tail| > 1 {
      JoinCons(tail[0], tail[1..], ",");
      JoinCons(pr[0], pr[1..], ",");
      assert tail[1..] == pr[1..];
      assert tail == [tail[0]] + tail[1..];
      assert pr == [pr[0]] + pr[1..];
    } else {
      assert tail == [[' '] + pr[0]];
    }
  }

  lemma {:induction false} TrimAllPadded(items: seq<string>)
    requires CleanItems(items)
    ensures TrimAll(Padded(items)) == items
  {
    var p := Padded(items);
    var r := TrimAll(p);
    forall k | 0 <= k < |items| ensures r[k] == items[k] {
      TrimPadded(items[k]);
      assert r[k] == Trim(p[k]);
      if k == 0 {
        assert p[k] == items[k];
      } else {
        assert p[k] == [' '] + items[k];
      }
    }
  }

  /** `filter(Boolean)` keeps order and duplicates: it distributes over concatenation. */
  lemma {:induction false} DropEmptyConcat(a: seq<string>, b: seq<string>)
    ensures DropEmpty(a + b) == DropEmpty(a) + DropEmpty(b)
    decreases |a|
  {
    if a == [] {
      assert a + b == b;
    } else {
      assert (a + b)[0] == a[0];
      assert (a + b)[1..] == a[1..] + b;
      DropEmptyConcat(a[1..], b);
      var head := if a[0] == "" then [] else [a[0]];
      calc {
        DropEmpty(a + b);
        head + DropEmpty(a[1..] + b);
        head + (DropEmpty(a[1..]) + DropEmpty(b));
        (head + DropEmpty(a[1..])) + DropEmpty(b);
      }
    }
  }

  /** Duplicates are kept: a field reading "S, S" gives two "S" items. */
  lemma DuplicatesKept(x: string)
    requires x != "" && IsTrimmed(x) && ',' !in x
    ensures ParseList(x + ", " + x) == [x, x]
  {
    assert Join([x, x], ", ") == x + ", " + x by {
      JoinCons(x, [x], ", ");
    }
    ParseListRoundTrip([x, x]);
  }

  lemma {:induction false} DropEmptyKeeps(items: seq<string>)
    requires forall k :: 0 <= k < |items| ==> items[k] != ""
    ensures DropEmpty(items) == items
    decreases |items|
  {
    if items != [] {
      DropEmptyKeeps(items[1..]);
      assert items == [items[0]] + items[1..];
    }
  }

  /** The list a field shows (`items.join(', ')`) parses back to the same list, whenever its items are
      non-empty, trimmed and comma-free, which is every list the parser produces. */
  lemma ParseListRoundTrip(items: seq<string>)
    requires CleanItems(items)
    ensures ParseList(Join(items, ", ")) == items
  {
    if items == [] {
      assert Split("", ',') == [""];
      assert TrimAll([""]) == [Trim("")];
    } else {
      JoinPadded(items);
      var p := Padded(items);
      assert FreeOf(p, ',') by {
        forall k | 0 <= k < |p| ensures ',' !in p[k] {
          assert k > 0 ==> p[k] == [' '] + items[k];
        }
      }
      SplitJoin(p, ',');
      TrimAllPadded(items);
      DropEmptyKeeps(items);
    }
  }

  /** Parsing is stable: the parser's own output shown and parsed again is unchanged. */
  lemma ParseListStable(text: string)
    ensures ParseList(Join(ParseList(text), ", ")) == ParseList(text)
  {
    var items := ParseList(text);
    assert CleanItems(items) by {
      forall k | 0 <= k < |items| ensures items[k] != "" && IsTrimmed(items[k]) && ',' !in items[k] {
        assert items[k] in items;
      }
    }
    ParseListRoundTrip(items);
  }

  // ----- Gallery lemmas -----

  /** An empty link or a full gallery leaves the form as it is; otherwise the link is appended, and it
      becomes the primary image only if the gallery was empty. */
  lemma AddImageEffect(f: FormData, url: string)
    ensures var g := AddImage(f, url);
      (url == "" || |Gallery(f)| >= MaxImages ==> g == f) &&
      (url != "" && |Gallery(f)| < MaxImages ==>
         Gallery(g) == Gallery(f) + [url] &&
         g.image == (if Gallery(f) == [] then Some(url) else f.image) &&
         g == f.(images := g.images, image := g.image))
  {
  }

  /** The gallery never grows past five entries. */
  lemma AddImageBound(f: FormData, url: string)
    requires |Gallery(f)| <= MaxImages
    ensures |Gallery(AddImage(f, url))| <= MaxImages
  {
  }

  /** Adding keeps "the primary image is the first gallery entry", and establishes it whenever a link
      goes into an empty gallery. */
  lemma AddImageKeepsPrimary(f: FormData, url: string)
    requires PrimaryFollowsGallery(f) || (Gallery(f) == [] && url != "")
    ensures PrimaryFollowsGallery(AddImage(f, url))
  {
    var g := AddImage(f, url);
    if url != "" && |Gallery(f)| < MaxImages && Gallery(f) != [] {
      assert Gallery(g)[0] == Gallery(f)[0];
    }
  }

  /** Removing drops exactly the `k`th entry, keeps the rest in order, and always leaves the primary
      image equal to the new first entry, or '' when the gallery is now empty. */
  lemma RemoveImageEffect(f: FormData, k: int)
    ensures var g := RemoveImage(f, k);
      (0 <= k < |Gallery(f)| ==> Gallery(g) == Gallery(f)[..k] + Gallery(f)[k + 1..]) &&
      (!(0 <= k < |Gallery(f)|) ==> Gallery(g) == Gallery(f)) &&
      PrimaryFollowsGallery(g) && g.image.Some?
  {
  }

  /** On submit, a form whose primary image follows its gallery sends the first gallery entry as the
      image; with an empty gallery it sends the primary image, or ''. */
  lemma SubmitImage(f: FormData, product: Option<Product>, freshId: string)
    ensures var p := SubmitProduct(f, product, freshId);
      (Gallery(f) != [] && Gallery(f)[0] != "" ==> p.image == Gallery(f)[0]) &&
      (PrimaryFollowsGallery(f) && Gallery(f) != [] ==> p.image == Gallery(f)[0]) &&
      (Gallery(f) == [] ==> p.image == f.image.GetOr("")) &&
      (product.Some? && product.value.id != "" ==> p.id == product.value.id) &&
      (product.None? ==> p.id == freshId)
  {
  }

  /** Opening the editor on a product and submitting it untouched hands back the same product, when
      it has an id and an image and its gallery, if any, starts with that image; a new product is
      submitted with the fresh id, no image, and the empty form's fields. */
  lemma OpenThenSubmit(product: Option<Product>, freshId: string)
    requires product.Some? ==> var p := product.value;
               p.id != "" && p.image != "" && (p.images.None? || p.images.value == [] || p.images.value[0] == p.image)
    ensures product.Some? ==> SubmitProduct(ResetForm(product), product, freshId) == product.value
    ensures product.None? ==>
              SubmitProduct(ResetForm(product), product, freshId) ==
              Product(freshId, "", Cents(0), "Women", "", Some([]), Some([]), Some([]), Some(""))
  {
  }

  /** The editor's form state. */
  class ProductEditorForm {
    var formData: FormData

    /** Opening the editor runs the reset effect for the given product. */
    constructor (product: Option<Product>)
      ensures formData == ResetForm(product)
    {
      formData := ResetForm(product);
    }

    /** The reset effect, run again when the product or the open state changes. */
    method Reset(product: Option<Product>)
      modifies this
      ensures formData == ResetForm(product)
    {
      formData := ResetForm(product);
    }

    /** `handleAddImage(url)`. */
    method HandleAddImage(url: string)
      modifies this
      ensures formData == AddImage(old(formData), url)
      ensures |Gallery(old(formData))| <= MaxImages ==> |Gallery(formData)| <= MaxImages
      ensures PrimaryFollowsGallery(old(formData)) ==> PrimaryFollowsGallery(formData)
    {
      if |Gallery(formData)| <= MaxImages {
        AddImageBound(formData, url);
      }
      if PrimaryFollowsGallery(formData) {
        AddImageKeepsPrimary(formData, url);
      }
      formData := AddImage(formData, url);
    }

    /** `handleRemoveImage(k)`. */
    method HandleRemoveImage(k: int)
      modifies this
      ensures formData == RemoveImage(old(formData), k)
      ensures PrimaryFollowsGallery(formData)
    {
      RemoveImageEffect(formData, k);
      formData := RemoveImage(formData, k);
    }

    /** The sizes field's `onChange`. */
    method EditSizes(text: string)
      modifies this
      ensures formData == old(formData).(sizes := Some(ParseList(text)))
    {
      formData := formData.(sizes := Some(ParseList(text)));
    }

    /** The colors field's `onChange`. */
    method EditColors(text: string)
      modifies this
      ensures formData == old(formData).(colors := Some(ParseList(text)))
    {
      formData := formData.(colors := Some(ParseList(text)));
    }

    /** `handleSubmit`: the product handed to `onSave`; `freshId` stands for `crypto.randomUUID()`. */
    method HandleSubmit(product: Option<Product>, freshId: string) returns (saved: Product)
      ensures saved == SubmitProduct(formData, product, freshId)
    {
      saved := SubmitProduct(formData, product, freshId);
    }
  }
}
