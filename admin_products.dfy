/**
 * The admin products page: the category buttons, the category and name
 * filters over the loaded products, and the create and edit forms that
 * either refuse with a toast or dispatch the product data.
 */
module AdminProducts {
  import opened Wrappers
  import opened Models
  import Lists
  import Text
  import AdminTable

  /** The category a button shows when no category is selected. */
  const AllCategories: string := "All"

  /** The toast of a form with a required field left empty. */
  const FillAllFields: string := "Please fill all required fields"

  /* ---------------- the table ---------------- */

  /** The category filter keeps everything for `All`, otherwise the equal category. */
  predicate InCategory(p: Product, categoryFilter: string) {
    categoryFilter == AllCategories || p.category == categoryFilter
  }

  /** The name contains the search text, both passed through `lower` (`toLowerCase`). */
  predicate NameMatches(p: Product, search: string, lower: string -> string) {
    Text.Includes(lower(p.name), lower(search))
  }

  /** `filtered`: the category filter, then the name search, in the loaded order. */
  function FilteredProducts(products: seq<Product>, categoryFilter: string, search: string,
                            lower: string -> string): (r: seq<Product>)
    ensures |r| <= |products|
    ensures forall p :: p in r <==>
      p in products && InCategory(p, categoryFilter) && NameMatches(p, search, lower)
  {
    var byCategory := Lists.Filter(products, p => InCategory(p, categoryFilter));
    Lists.Filter(byCategory, p => NameMatches(p, search, lower))
  }

  /** The categories in the loaded order, one per product. */
  function CategoriesOf(products: seq<Product>): (r: seq<string>)
    ensures |r| == |products|
    ensures forall i :: 0 <= i < |r| ==> r[i] == products[i].category
  {
    if |products| == 0 then [] else [products[0].category] + CategoriesOf(products[1..])
  }

  /** `['All', ...new Set(products.map(p => p.category))]`. */
  function CategoryButtons(products: seq<Product>): (r: seq<string>)
    ensures |r| >= 1 && r[0] == AllCategories
    ensures forall c :: c in r[1..] <==> exists i :: 0 <= i < |products| && CategoriesOf(products)[i] == c
    ensures forall i, j :: 1 <= i < j < |r| ==> r[i] != r[j]
  {
    var d := Lists.Distinct(CategoriesOf(products));
    var r := [AllCategories] + d;
    assert r[1..] == d;
    r
  }

  /**
   * With the `All` button and an empty search the table lists every loaded
   * product, in order (given that `lower` maps the empty string to itself,
   * as `toLowerCase` does).
   */
  lemma UnfilteredListsEverything(products: seq<Product>, lower: string -> string)
    requires lower("") == ""
    ensures FilteredProducts(products, AllCategories, "", lower) == products
  {
    Lists.FilterAll(products, p => InCategory(p, AllCategories));
    forall i | 0 <= i < |products| ensures NameMatches(products[i], "", lower) {
      Text.IncludesEmpty(lower(products[i].name));
    }
    Lists.FilterAll(products, p => NameMatches(p, "", lower));
  }

  /**
   * Every category button but `All` belongs to a loaded product, and with an
   * empty search clicking it leaves a non-empty table.
   */
  lemma CategoryButtonsSelectSomething(products: seq<Product>, lower: string -> string, i: nat)
    requires lower("") == ""
    requires 1 <= i < |CategoryButtons(products)|
    ensures FilteredProducts(products, CategoryButtons(products)[i], "", lower) != []
  {
    var r := CategoryButtons(products);
    assert r[1..][i - 1] == r[i];
    assert r[i] in r[1..];
    CategorySelectsItsProducts(products, lower, r[i]);
  }

  /** The buttons after `All` follow the order in which the categories first appear. */
  lemma CategoryButtonsInFirstAppearanceOrder(products: seq<Product>, i: nat, j: nat)
    requires i < j < |CategoryButtons(products)| - 1
    ensures var after := CategoryButtons(products)[1..];
      after[i] in CategoriesOf(products) && after[j] in CategoriesOf(products) &&
      Lists.FirstIndex(CategoriesOf(products), after[i]) < Lists.FirstIndex(CategoriesOf(products), after[j])
  {
    var cs := CategoriesOf(products);
    assert CategoryButtons(products)[1..] == Lists.Distinct(cs);
    Lists.DistinctInFirstAppearanceOrder(cs, i, j);
  }

  /** With an empty search, a category some product has keeps that product in the table. */
  lemma CategorySelectsItsProducts(products: seq<Product>, lower: string -> string, c: string)
    requires lower("") == ""
    requires exists k :: 0 <= k < |products| && CategoriesOf(products)[k] == c
    ensures FilteredProducts(products, c, "", lower) != []
  {
    var k :| 0 <= k < |products| && CategoriesOf(products)[k] == c;
    var p := products[k];
    Text.IncludesEmpty(lower(p.name));
    assert InCategory(p, c) && NameMatches(p, "", lower);
    assert p in FilteredProducts(products, c, "", lower);
  }

  /* ---------------- the product form ---------------- */

  /**
   * A form field as the page holds it: the text the admin typed, or the
   * number copied from a product when its edit form was opened.
   */
  datatype FormValue = Typed(text: string) | Loaded(number: real)

  /** JavaScript truthiness of a field: a non-empty string, a non-zero number. */
  predicate Truthy(v: FormValue) {
    match v
    case Typed(s) => s != ""
    case Loaded(n) => n != 0.0
  }

  /** `form`: the fields of the create and edit modals; `images` is a data URL or empty. */
  datatype ProductForm = ProductForm(
    name: string,
    description: string,
    price: FormValue,
    category: string,
    stock: FormValue,
    images: string)

  /** `emptyForm`. */
  const EmptyForm: ProductForm := ProductForm("", "", Typed(""), "", Typed(""), "")

  /** The data sent to `createProduct` and `updateProduct`; `images` only when one was chosen. */
  datatype ProductData = ProductData(
    name: string,
    description: string,
    price: real,
    category: string,
    stock: real,
    images: Option<string>)

  /** `Number(v)`: the number itself, or what `toNumber` makes of the typed text. */
  function AsNumber(v: FormValue, toNumber: string -> real): real {
    match v
    case Typed(s) => toNumber(s)
    case Loaded(n) => n
  }

  /** The guard of both handlers: name, description, price, category and stock all truthy. */
  predicate RequiredFilled(f: ProductForm) {
    f.name != "" && f.description != "" && Truthy(f.price) && f.category != "" && Truthy(f.stock)
  }

  /** `productData`, built once the guard has passed. */
  function DataOf(f: ProductForm, toNumber: string -> real): (d: ProductData)
    ensures d.name == f.name && d.description == f.description && d.category == f.category
    ensures d.price == AsNumber(f.price, toNumber) && d.stock == AsNumber(f.stock, toNumber)
    ensures d.images.Some? <==> f.images != ""
    ensures d.images.Some? ==> d.images.value == f.images
  {
    ProductData(f.name, f.description, AsNumber(f.price, toNumber), f.category,
                AsNumber(f.stock, toNumber), if f.images != "" then Some(f.images) else None)
  }

  /** `handleCreate`. */
  function HandleCreate(f: ProductForm, toNumber: string -> real): (r: AdminTable.Submit<ProductData>)
    ensures r.Refused? <==> !RequiredFilled(f)
    ensures r.Refused? ==> r.toast == FillAllFields
    ensures r.Dispatched? ==> r.request == DataOf(f, toNumber)
  {
    if !RequiredFilled(f) then AdminTable.Refused(FillAllFields)
    else AdminTable.Dispatched(DataOf(f, toNumber))
  }

  /** `handleUpdate` on the product whose edit modal is open. */
  function HandleUpdate(f: ProductForm, editing: Id, toNumber: string -> real)
    : (r: AdminTable.Submit<(Id, ProductData)>)
    ensures r.Refused? <==> !RequiredFilled(f)
    ensures r.Refused? ==> r.toast == FillAllFields
    ensures r.Dispatched? ==> r.request == (editing, DataOf(f, toNumber))
  {
    if !RequiredFilled(f) then AdminTable.Refused(FillAllFields)
    else AdminTable.Dispatched((editing, DataOf(f, toNumber)))
  }

  /** `openEdit`: the product's fields, its price and stock as numbers, no new image. */
  function OpenEdit(p: Product): (f: ProductForm)
    ensures f.name == p.name && f.description == p.description && f.category == p.category
    ensures f.price == Loaded(p.price) && f.stock == Loaded(p.stock as real)
    ensures f.images == ""
  {
    ProductForm(p.name, p.description, Loaded(p.price), p.category, Loaded(p.stock as real), "")
  }

  /** The empty form is always refused, whatever the handler. */
  lemma EmptyFormRefused(editing: Id, toNumber: string -> real)
    ensures HandleCreate(EmptyForm, toNumber) == AdminTable.Refused(FillAllFields)
    ensures HandleUpdate(EmptyForm, editing, toNumber) == AdminTable.Refused(FillAllFields)
  {
  }

  /**
   * Submitting an edit form untouched sends the product's own name,
   * description, category, price and stock, and no image (so the stored
   * images stay), whenever the guard lets it through.
   */
  lemma UntouchedEditKeepsProduct(p: Product, toNumber: string -> real)
    requires HandleUpdate(OpenEdit(p), p.id, toNumber).Dispatched?
    ensures HandleUpdate(OpenEdit(p), p.id, toNumber).request ==
      (p.id, ProductData(p.name, p.description, p.price, p.category, p.stock as real, None))
  {
  }

  /**
   * As written, opening the edit form of a sold-out product (stock 0) and
   * saving it untouched is refused, because the loaded number 0 is falsy;
   * typing the same value, the text "0", is accepted. The same holds for a
   * price of 0.
   */
  lemma SoldOutEditRefused(p: Product, toNumber: string -> real)
    requires p.stock == 0
    ensures HandleUpdate(OpenEdit(p), p.id, toNumber) == AdminTable.Refused(FillAllFields)
    ensures OpenEdit(p).(stock := Typed("0")).stock != OpenEdit(p).stock
    ensures RequiredFilled(OpenEdit(p).(stock := Typed("0"))) <==>
      p.name != "" && p.description != "" && p.price != 0.0 && p.category != ""
  {
  }

  /* ---------------- the guard as evidently intended ---------------- */

  /** A field is filled when it holds typed text that is not empty, or any loaded number. */
  predicate Filled(v: FormValue) {
    match v
    case Typed(s) => s != ""
    case Loaded(_) => true
  }

  predicate RequiredFilledCorrected(f: ProductForm) {
    f.name != "" && f.description != "" && Filled(f.price) && f.category != "" && Filled(f.stock)
  }

  /** `handleUpdate` with a guard that asks whether a field is empty rather than falsy. */
  function HandleUpdateCorrected(f: ProductForm, editing: Id, toNumber: string -> real)
    : (r: AdminTable.Submit<(Id, ProductData)>)
    ensures r.Refused? <==> !RequiredFilledCorrected(f)
    ensures r.Refused? ==> r.toast == FillAllFields
    ensures r.Dispatched? ==> r.request == (editing, DataOf(f, toNumber))
  {
    if !RequiredFilledCorrected(f) then AdminTable.Refused(FillAllFields)
    else AdminTable.Dispatched((editing, DataOf(f, toNumber)))
  }

  /**
   * With the corrected guard an untouched edit form is accepted exactly when
   * the product has a name, a description and a category, whatever its
   * price or stock, and typed text is judged as before.
   */
  lemma CorrectedEditAccepted(p: Product, f: ProductForm, toNumber: string -> real)
    ensures HandleUpdateCorrected(OpenEdit(p), p.id, toNumber).Dispatched? <==>
      p.name != "" && p.description != "" && p.category != ""
    ensures f.price.Typed? && f.stock.Typed? ==>
      HandleUpdateCorrected(f, p.id, toNumber) == HandleUpdate(f, p.id, toNumber)
  {
  }
}
