/**
 * The product editor of the admin page: the comma-separated size and color
 * lists, and the state of the create/edit dialog.
 */
module AdminProducts {
  import opened Wrappers
  import opened Backend
  import opened Text

  // ---------------------------------------------------------------------------
  // Size and color lists

  /** Each piece trimmed, empty results dropped (`map(s => s.trim()).filter(s => s)`). */
  function CleanPieces(pieces: seq<string>): (r: seq<string>)
    ensures |r| <= |pieces|
    ensures forall i :: 0 <= i < |r| ==> r[i] != "" && Trimmed(r[i])
    decreases |pieces|
  {
    if |pieces| == 0 then []
    else
      var t := Trim(pieces[0]);
      (if t == "" then [] else [t]) + CleanPieces(pieces[1..])
  }

  /** The trim of every piece, in order. */
  function Trims(pieces: seq<string>): (r: seq<string>)
    ensures |r| == |pieces|
    ensures forall i :: 0 <= i < |pieces| ==> r[i] == Trim(pieces[i])
  {
    seq(|pieces|, i requires 0 <= i < |pieces| => Trim(pieces[i]))
  }

  /**
   * The kept elements are exactly the non-empty trims of the pieces: each one is
   * the trim of some piece, and each piece whose trim is non-empty contributes it.
   */
  lemma {:induction false} CleanPiecesMembers(pieces: seq<string>)
    ensures forall x :: x in CleanPieces(pieces) <==> x in Trims(pieces) && x != ""
    decreases |pieces|
  {
    if |pieces| > 0 {
      CleanPiecesMembers(pieces[1..]);
      var t := Trim(pieces[0]);
      var head := if t == "" then [] else [t];
      assert CleanPieces(pieces) == head + CleanPieces(pieces[1..]);
      assert Trims(pieces) == [t] + Trims(pieces[1..]);
    }
  }

  /** Trimming only removes characters: a character absent from every piece is absent from the result. */
  lemma {:induction false} CleanPiecesWithout(pieces: seq<string>, c: char)
    requires forall j :: 0 <= j < |pieces| ==> c !in pieces[j]
    ensures forall i :: 0 <= i < |CleanPieces(pieces)| ==> c !in CleanPieces(pieces)[i]
    decreases |pieces|
  {
    if |pieces| > 0 {
      assert forall j :: 0 <= j < |pieces[1..]| ==> pieces[1..][j] == pieces[j + 1];
      CleanPiecesWithout(pieces[1..], c);
      var t := Trim(pieces[0]);
      assert c !in t;
    }
  }

  lemma {:induction false} CleanConcat(a: seq<string>, b: seq<string>)
    ensures CleanPieces(a + b) == CleanPieces(a) + CleanPieces(b)
    decreases |a|
  {
    if |a| == 0 {
      assert a + b == b;
    } else {
      assert (a + b)[0] == a[0];
      assert (a + b)[1..] == a[1..] + b;
      CleanConcat(a[1..], b);
    }
  }

  /**
   * `text.split(',').map(s => s.trim()).filter(s => s)`: every element is
   * non-empty, has no surrounding whitespace and holds no comma.
   */
  function ParseList(text: string): (r: seq<string>)
    ensures forall i :: 0 <= i < |r| ==> r[i] != "" && Trimmed(r[i]) && ',' !in r[i]
  {
    var pieces := Split(text, ',');
    SplitPiecesWithoutSeparator(text, ',');
    CleanPiecesWithout(pieces, ',');
    CleanPieces(pieces)
  }

  /** `list.join(', ')`, used to fill the form from a product. */
  function JoinList(xs: seq<string>): string {
    Join(xs, ", ")
  }

  /** Parsing keeps input order: the elements before a comma come first. */
  lemma ParseConcat(a: string, b: string)
    ensures ParseList(a + [','] + b) == ParseList(a) + ParseList(b)
  {
    SplitConcat(a, b, ',');
    CleanConcat(Split(a, ','), Split(b, ','));
  }

  /** Whitespace before the text changes nothing. */
  lemma ParseLeadingWhitespace(c: char, s: string)
    requires IsWhitespace(c)
    ensures ParseList([c] + s) == ParseList(s)
  {
    var rest := Split(s, ',');
    assert c != ',';
    assert ([c] + s)[1..] == s;
    var r := Split([c] + s, ',');
    assert r == [[c] + rest[0]] + rest[1..];
    assert rest == [rest[0]] + rest[1..];
    CleanConcat([[c] + rest[0]], rest[1..]);
    CleanConcat([rest[0]], rest[1..]);
    TrimLeadingWhitespace(c, rest[0]);
    assert CleanPieces([[c] + rest[0]]) == CleanPieces([rest[0]]) by {
      assert [[c] + rest[0]][1..] == [] && [rest[0]][1..] == [];
    }
  }

  /** An element that is non-empty, trimmed and comma-free. */
  predicate ListElement(x: string) {
    x != "" && Trimmed(x) && ',' !in x
  }

  /**
   * Round trip of the edit form: a list of non-empty, trimmed, comma-free
   * strings joined with ", " parses back to the same list.
   */
  lemma {:induction false} ParseJoinRoundTrip(xs: seq<string>)
    requires forall i :: 0 <= i < |xs| ==> ListElement(xs[i])
    ensures ParseList(JoinList(xs)) == xs
    decreases |xs|
  {
    if |xs| == 0 {
      ParseEmpty();
    } else if |xs| == 1 {
      ParseElement(xs[0]);
    } else {
      var x, tail := xs[0], xs[1..];
      assert forall i :: 0 <= i < |tail| ==> tail[i] == xs[i + 1];
      var j := JoinList(tail);
      calc {
        ParseList(JoinList(xs));
        { JoinListCons(xs); }
        ParseList(x + [','] + ([' '] + j));
        { ParseConcat(x, [' '] + j); }
        ParseList(x) + ParseList([' '] + j);
        { ParseElement(x); ParseLeadingWhitespace(' ', j); }
        [x] + ParseList(j);
        { ParseJoinRoundTrip(tail); }
        [x] + tail;
      }
      assert xs == [x] + tail;
    }
  }

  lemma JoinListCons(xs: seq<string>)
    requires |xs| >= 2
    ensures JoinList(xs) == xs[0] + [','] + ([' '] + JoinList(xs[1..]))
  {
    assert ", " == [','] + [' '];
  }

  /** The empty text is the empty list. */
  lemma ParseEmpty()
    ensures ParseList("") == []
  {
    assert Split("", ',') == [""];
    assert [""][1..] == [];
  }

  /** A single well-formed element parses to itself. */
  lemma ParseElement(x: string)
    requires ListElement(x)
    ensures ParseList(x) == [x]
  {
    SplitWithoutSeparator(x, ',');
    assert [x][1..] == [];
  }

  // ---------------------------------------------------------------------------
  // The product form

  /** The text fields of the product dialog. */
  datatype ProductFormData = ProductFormData(
    name: string,
    description: string,
    price: string,
    category: string,
    imageUrl: string,
    sizes: string,
    colors: string)

  const EmptyForm := ProductFormData("", "", "", "", "", "", "")

  /**
   * The form filled from a product. `priceText` is the decimal rendering of
   * `price / 100`, a floating-point step this model takes as given.
   */
  function FormOf(product: Product, priceText: string): ProductFormData {
    ProductFormData(product.name, product.description, priceText, product.category,
                    product.imageUrl, JoinList(product.sizes), JoinList(product.colors))
  }

  /** What the dialog sends: an update of `id` when editing, a new product otherwise. */
  datatype ProductDraft = ProductDraft(
    id: Option<ProductId>,
    name: string,
    description: string,
    price: int,
    category: string,
    imageUrl: string,
    sizes: seq<string>,
    colors: seq<string>)

  /** The submission built from the form; `priceCents` is the rounded price the form's text denotes. */
  function DraftOf(form: ProductFormData, editing: Option<Product>, priceCents: int): (d: ProductDraft)
    ensures d.id.Some? <==> editing.Some?
    ensures editing.Some? ==> d.id == Some(editing.value.id)
    ensures d.name == form.name && d.description == form.description
    ensures d.category == form.category && d.imageUrl == form.imageUrl
    ensures d.price == priceCents
    ensures d.sizes == ParseList(form.sizes) && d.colors == ParseList(form.colors)
    ensures forall i :: 0 <= i < |d.sizes| ==> ListElement(d.sizes[i])
    ensures forall i :: 0 <= i < |d.colors| ==> ListElement(d.colors[i])
  {
    var id := match editing case Some(p) => Some(p.id) case None => None;
    ProductDraft(id, form.name, form.description, priceCents, form.category, form.imageUrl,
                 ParseList(form.sizes), ParseList(form.colors))
  }

  /**
   * Opening a product for edit and submitting it unchanged sends back the same
   * id, text fields, sizes and colors, provided its lists are well formed.
   */
  lemma EditUnchangedRoundTrip(product: Product, priceText: string, priceCents: int)
    requires forall i :: 0 <= i < |product.sizes| ==> ListElement(product.sizes[i])
    requires forall i :: 0 <= i < |product.colors| ==> ListElement(product.colors[i])
    ensures DraftOf(FormOf(product, priceText), Some(product), priceCents)
         == ProductDraft(Some(product.id), product.name, product.description, priceCents,
                         product.category, product.imageUrl, product.sizes, product.colors)
  {
    ParseJoinRoundTrip(product.sizes);
    ParseJoinRoundTrip(product.colors);
  }

  /** The state of the product dialog. */
  class ProductEditor {
    var isFormOpen: bool
    var editingProduct: Option<Product>
    var formData: ProductFormData
    var imagePreview: string

    /** The page starts with the dialog closed and an empty form. */
    constructor ()
      ensures !isFormOpen && editingProduct == None && formData == EmptyForm && imagePreview == ""
    {
      isFormOpen := false;
      editingProduct := None;
      formData := EmptyForm;
      imagePreview := "";
    }

    /** Open the dialog for a new product with an empty form. */
    method OpenCreate()
      modifies this
      ensures editingProduct == None && formData == EmptyForm && imagePreview == "" && isFormOpen
    {
      editingProduct := None;
      formData := EmptyForm;
      imagePreview := "";
      isFormOpen := true;
    }

    /** Open the dialog on an existing product, its lists joined with ", ". */
    method OpenEdit(product: Product, priceText: string)
      modifies this
      ensures editingProduct == Some(product)
      ensures formData == FormOf(product, priceText)
      ensures imagePreview == product.imageUrl && isFormOpen
    {
      editingProduct := Some(product);
      formData := FormOf(product, priceText);
      imagePreview := product.imageUrl;
      isFormOpen := true;
    }

    /** Close the dialog and reset the form. */
    method CloseForm()
      modifies this
      ensures !isFormOpen && editingProduct == None && formData == EmptyForm && imagePreview == ""
    {
      isFormOpen := false;
      editingProduct := None;
      formData := EmptyForm;
      imagePreview := "";
    }

    /** Typing an image URL updates the form and the preview together. */
    method ChangeImageUrl(url: string)
      modifies this
      ensures formData == old(formData).(imageUrl := url) && imagePreview == url
      ensures isFormOpen == old(isFormOpen) && editingProduct == old(editingProduct)
    {
      formData := formData.(imageUrl := url);
      imagePreview := url;
    }

    /**
     * Submit the dialog. `priceCents` is the price text converted to whole cents,
     * or `None` when the text does not denote a finite number, in which case the
     * conversion throws before anything is sent. `succeeded` is the outcome of the
     * remote add or update; on success the dialog closes, on failure nothing changes.
     */
    method Submit(priceCents: Option<int>, succeeded: bool) returns (draft: Option<ProductDraft>)
      modifies this
      ensures priceCents.None? ==> draft == None && unchanged(this)
      ensures priceCents.Some? ==> draft == Some(DraftOf(old(formData), old(editingProduct), priceCents.value))
      ensures priceCents.Some? && succeeded ==>
                !isFormOpen && editingProduct == None && formData == EmptyForm && imagePreview == ""
      ensures priceCents.Some? && !succeeded ==> unchanged(this)
    {
      if priceCents.None? {
        return None;
      }
      draft := Some(DraftOf(formData, editingProduct, priceCents.value));
      if succeeded {
        CloseForm();
      }
    }
  }
}
