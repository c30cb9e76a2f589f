/** The product catalog screen: the list of products it loaded, the views it
    derives from that list (the category list and the filtered rows), and the
    handlers that change its state: loading, editing, creating, the
    single-slot delete confirmation and deleting. */
module ProductsPage {
  import opened Wrappers
  import opened Types
  import opened Drafts
  import opened Strings
  import opened Sequences
  import opened ProductModal

  /** The category name of each product, in list order. */
  function CategoryNames(products: seq<MenuItem>): (names: seq<string>)
    ensures |names| == |products|
    ensures forall i :: 0 <= i < |products| ==> names[i] == products[i].categoria.denominacion
  {
    seq(|products|, i requires 0 <= i < |products| => products[i].categoria.denominacion)
  }

  /** `categories`: the distinct category names of the products, in the
      order in which each first appears. */
  function Categories(products: seq<MenuItem>): (r: seq<string>)
    ensures NoDuplicates(r)
    ensures forall i :: 0 <= i < |r| ==> exists k :: 0 <= k < |products| && products[k].categoria.denominacion == r[i]
    ensures forall k :: 0 <= k < |products| ==> products[k].categoria.denominacion in r
    ensures forall i, j :: 0 <= i < j < |r| ==>
      FirstIndex(CategoryNames(products), r[i]) < FirstIndex(CategoryNames(products), r[j])
  {
    var names := CategoryNames(products);
    var r := Distinct(names);
    assert forall i :: 0 <= i < |r| ==> r[i] in names;
    assert forall k :: 0 <= k < |products| ==> names[k] in r;
    r
  }

  /** The search term occurs, ignoring case, in the name or the description. */
  predicate MatchesSearch(p: MenuItem, term: string) {
    Includes(Lower(p.denominacion), Lower(term)) || Includes(Lower(p.descripcion), Lower(term))
  }

  /** No category is selected, or the product is in the selected one. */
  predicate MatchesCategory(p: MenuItem, category: string) {
    category == "" || p.categoria.denominacion == category
  }

  predicate Matches(p: MenuItem, term: string, category: string) {
    MatchesSearch(p, term) && MatchesCategory(p, category)
  }

  /** `filteredProducts`: the products that match both the search term and
      the selected category, in list order. */
  function FilteredProducts(products: seq<MenuItem>, term: string, category: string): (r: seq<MenuItem>)
    ensures IsSubsequence(r, products)
    ensures forall i :: 0 <= i < |r| ==> Matches(r[i], term, category)
    ensures forall k :: 0 <= k < |products| && Matches(products[k], term, category) ==> products[k] in r
    ensures multiset(r) <= multiset(products)
    ensures forall k :: 0 <= k < |products| && Matches(products[k], term, category) ==>
      multiset(r)[products[k]] == multiset(products)[products[k]]
  {
    Filter(products, p => Matches(p, term, category))
  }

  /** With an empty search term and no category every product is shown. */
  lemma NoFilterShowsAll(products: seq<MenuItem>)
    ensures FilteredProducts(products, "", "") == products
  {
    forall k | 0 <= k < |products| ensures Matches(products[k], "", "") {
      IncludesEmpty(Lower(products[k].denominacion));
    }
  }

  /** The two conditions are independent: filtering by the term and then by
      the category gives the same rows. */
  lemma FilterIsConjunctive(products: seq<MenuItem>, term: string, category: string)
    ensures FilteredProducts(products, term, category) ==
            Filter(Filter(products, p => MatchesSearch(p, term)), p => MatchesCategory(p, category))
  {
    FilterConjunction(products, p => MatchesSearch(p, term), p => MatchesCategory(p, category),
                      p => Matches(p, term, category));
  }

  /** With no category selected only the search term decides. */
  lemma AllCategoriesFiltersByTermOnly(products: seq<MenuItem>, term: string)
    ensures FilteredProducts(products, term, "") == Filter(products, p => MatchesSearch(p, term))
  {
    FilterIsConjunctive(products, term, "");
    var bySearch := Filter(products, p => MatchesSearch(p, term));
    assert forall i :: 0 <= i < |bySearch| ==> MatchesCategory(bySearch[i], "");
  }

  /** `handleDelete`'s new list: every product with the id is gone, every
      other product stays, in order. */
  function RemoveById(products: seq<MenuItem>, id: string): (r: seq<MenuItem>)
    ensures IsSubsequence(r, products)
    ensures forall i :: 0 <= i < |r| ==> r[i].id != id
    ensures forall k :: 0 <= k < |products| && products[k].id != id ==> products[k] in r
    ensures (forall k :: 0 <= k < |products| ==> products[k].id != id) ==> r == products
    ensures multiset(r) <= multiset(products)
    ensures forall k :: 0 <= k < |products| && products[k].id != id ==>
      multiset(r)[products[k]] == multiset(products)[products[k]]
  {
    Filter(products, (p: MenuItem) => p.id != id)
  }

  /** `{ ...p, ...data }`: every property present in `data` overrides the
      product's. */
  function Merge(p: MenuItem, data: ProductDraft): (r: MenuItem)
    ensures Complete(data) ==> r == Value(data)
    ensures data == NoFields ==> r == p
  {
    MenuItem(
      data.id.GetOr(p.id),
      data.denominacion.GetOr(p.denominacion),
      data.categoriaId.GetOr(p.categoriaId),
      data.categoria.GetOr(p.categoria),
      data.imagenes.GetOr(p.imagenes),
      data.precioVenta.GetOr(p.precioVenta),
      data.descripcion.GetOr(p.descripcion),
      data.tiempoEstimadoMinutos.GetOr(p.tiempoEstimadoMinutos),
      data.preparacion.GetOr(p.preparacion),
      data.detalles.GetOr(p.detalles))
  }

  /** Merging the same data twice is merging it once. */
  lemma MergeIdempotent(p: MenuItem, data: ProductDraft)
    ensures Merge(Merge(p, data), data) == Merge(p, data)
  {
  }

  /** The edit branch of `handleSave`: each product whose id is the edited
      one is replaced by the merge, every other product is kept, and the
      length does not change. */
  function ReplaceById(products: seq<MenuItem>, id: string, data: ProductDraft): (r: seq<MenuItem>)
    ensures |r| == |products|
    ensures forall k :: 0 <= k < |products| && products[k].id != id ==> r[k] == products[k]
    ensures forall k :: 0 <= k < |products| && products[k].id == id ==> r[k] == Merge(products[k], data)
  {
    seq(|products|, k requires 0 <= k < |products| =>
      if products[k].id == id then Merge(products[k], data) else products[k])
  }

  /** Saving the unchanged form of a product changes nothing in the list,
      when the list holds that product under its id. */
  lemma SaveUnchangedKeepsList(products: seq<MenuItem>, p: MenuItem)
    requires forall k :: 0 <= k < |products| && products[k].id == p.id ==> products[k] == p
    ensures ReplaceById(products, p.id, AsDraft(p)) == products
  {
    ValueOfAsDraft(p);
  }

  /** The defaults of the create branch: empty texts, zero numbers, no
      images or lines, the empty category reference. */
  const Blank: MenuItem := MenuItem("", "", "", Category("", ""), [], 0.0, "", 0, "", [])

  /** The product the create branch of `handleSave` builds: the id is the
      decimal time stamp, every other property comes from `data`, or is its
      default when absent. (`x || d` picks `d` also for the falsy values
      `''` and `0`, which are the defaults themselves.) */
  function NewProduct(data: ProductDraft, stamp: nat): (m: MenuItem)
    ensures m.id == Decimal(stamp)
    ensures m == Merge(Blank, data).(id := Decimal(stamp))
  {
    MenuItem(
      Decimal(stamp),
      data.denominacion.GetOr(""),
      data.categoriaId.GetOr(""),
      data.categoria.GetOr(Category("", "")),
      data.imagenes.GetOr([]),
      data.precioVenta.GetOr(0.0),
      data.descripcion.GetOr(""),
      data.tiempoEstimadoMinutos.GetOr(0),
      data.preparacion.GetOr(""),
      data.detalles.GetOr([]))
  }

  /** Creating from the whole record of a product yields that product under
      the new id. */
  lemma NewFromCompleteDraft(m: MenuItem, stamp: nat)
    ensures NewProduct(AsDraft(m), stamp) == m.(id := Decimal(stamp))
  {
  }

  /** Submitting the untouched new-product form creates the blank product. */
  lemma NewFromEmptyForm(stamp: nat)
    ensures NewProduct(EmptyDraft, stamp) == Blank.(id := Decimal(stamp))
  {
  }

  /** `handleSave`'s new list: with a product selected, the edit branch;
      otherwise one new product appended. */
  function Saved(products: seq<MenuItem>, selected: Option<MenuItem>, data: ProductDraft, stamp: nat): (r: seq<MenuItem>)
    ensures selected.Some? ==> r == ReplaceById(products, selected.value.id, data)
    ensures selected.None? ==> |r| == |products| + 1 && r[..|products|] == products
    ensures selected.None? ==> r[|products|] == NewProduct(data, stamp)
  {
    if selected.Some? then ReplaceById(products, selected.value.id, data)
    else products + [NewProduct(data, stamp)]
  }

  /** The outcome of the catalog request. */
  datatype FetchOutcome = Fetched(items: seq<MenuItem>) | FetchFailed

  /** The user interactions the open modal passes on. */
  datatype FormAction =
    | AddIngredient
    | RemoveIngredient(index: int)
    | UpdateIngredient(index: int, field: string, value: LineValue)
    | PickSupply(line: int, supplyId: string)
    | PickCategory(option: string)
    | EditField(edit: FieldEdit)
    | Submit
    | Cancel

  predicate WellFormed(a: FormAction) {
    a.UpdateIngredient? ==> FitsField(a.field, a.value)
  }

  /** The state of the catalog screen. `form` is the state of the modal,
      which the screen keeps mounted except while it shows the spinner. */
  class CatalogPage {
    var searchTerm: string
    var selectedCategory: string
    var products: seq<MenuItem>
    var loading: bool
    var isModalOpen: bool
    var selectedProduct: Option<MenuItem>
    var showDeleteConfirm: Option<string>
    const form: ProductForm

    /** While a product is selected, the form is a whole product record
        carrying the selected product's id: it starts as a copy of that
        product, and no edit of the form removes a property or changes the
        id. */
    ghost predicate Valid()
      reads this, form
    {
      selectedProduct.Some? ==> Complete(form.data) && form.data.id == Some(selectedProduct.value.id)
    }

    /** The screen as it mounts: no products, loading, nothing selected. */
    constructor ()
      ensures searchTerm == "" && selectedCategory == "" && products == []
      ensures loading && !isModalOpen && selectedProduct.None? && showDeleteConfirm.None?
      ensures fresh(form) && form.data == EmptyDraft
      ensures Valid()
    {
      searchTerm, selectedCategory := "", "";
      products := [];
      loading := true;
      isModalOpen := false;
      selectedProduct := None;
      showDeleteConfirm := None;
      form := new ProductForm();
    }

    /** The category list passed to the filter and to the modal. */
    function CategoryList(): (r: seq<string>)
      reads this
      ensures r == Categories(products)
    {
      Categories(products)
    }

    /** The spinner while loading, the filtered rows otherwise. */
    function Rows(): (r: Option<seq<MenuItem>>)
      reads this
      ensures r.None? <==> loading
      ensures r.Some? ==> r.value == FilteredProducts(products, searchTerm, selectedCategory)
    {
      if loading then None else Some(FilteredProducts(products, searchTerm, selectedCategory))
    }

    /** The first step of `loadProducts`. */
    method BeginLoad()
      requires Valid()
      ensures Valid()
      modifies this
      ensures loading
      ensures products == old(products) && isModalOpen == old(isModalOpen)
      ensures selectedProduct == old(selectedProduct) && showDeleteConfirm == old(showDeleteConfirm)
      ensures searchTerm == old(searchTerm) && selectedCategory == old(selectedCategory)
    {
      loading := true;
    }

    /** The second step of `loadProducts`, once the request has settled:
        the list is replaced on success and kept on failure, and loading
        ends either way. Leaving the spinner mounts the modal again, whose
        form starts from its initial value and is initialised for the
        selected product. */
    method FinishLoad(outcome: FetchOutcome)
      requires Valid()
      ensures Valid()
      modifies this, form
      ensures !loading
      ensures products == if outcome.Fetched? then outcome.items else old(products)
      ensures form.data == if old(loading) then InitialDraft(selectedProduct) else old(form.data)
      ensures isModalOpen == old(isModalOpen) && selectedProduct == old(selectedProduct)
      ensures showDeleteConfirm == old(showDeleteConfirm)
      ensures searchTerm == old(searchTerm) && selectedCategory == old(selectedCategory)
    {
      if outcome.Fetched? {
        products := outcome.items;
      }
      if loading {
        form.Reset(selectedProduct);
      }
      loading := false;
    }

    method SetSearchTerm(term: string)
      requires Valid()
      ensures Valid()
      modifies this
      ensures searchTerm == term
      ensures selectedCategory == old(selectedCategory) && products == old(products)
      ensures loading == old(loading) && isModalOpen == old(isModalOpen)
      ensures selectedProduct == old(selectedProduct) && showDeleteConfirm == old(showDeleteConfirm)
    {
      searchTerm := term;
    }

    method SetSelectedCategory(category: string)
      requires Valid()
      ensures Valid()
      modifies this
      ensures selectedCategory == category
      ensures searchTerm == old(searchTerm) && products == old(products)
      ensures loading == old(loading) && isModalOpen == old(isModalOpen)
      ensures selectedProduct == old(selectedProduct) && showDeleteConfirm == old(showDeleteConfirm)
    {
      selectedCategory := category;
    }

    /** `setSelectedProduct`, followed by the modal's initialisation effect,
        which runs only when the selected product changes. */
    method Select(product: Option<MenuItem>)
      requires Valid()
      ensures Valid()
      modifies this, form
      ensures selectedProduct == product
      ensures form.data == if product != old(selectedProduct) then InitialDraft(product) else old(form.data)
      ensures products == old(products) && loading == old(loading) && isModalOpen == old(isModalOpen)
      ensures showDeleteConfirm == old(showDeleteConfirm)
      ensures searchTerm == old(searchTerm) && selectedCategory == old(selectedCategory)
    {
      if product != selectedProduct {
        form.Reset(product);
      }
      selectedProduct := product;
    }

    /** `handleEdit`: open the modal on a product. */
    method HandleEdit(product: MenuItem)
      requires Valid()
      ensures Valid()
      modifies this, form
      ensures isModalOpen && selectedProduct == Some(product)
      ensures form.data == if old(selectedProduct) != Some(product) then AsDraft(product) else old(form.data)
      ensures products == old(products) && loading == old(loading)
      ensures showDeleteConfirm == old(showDeleteConfirm)
      ensures searchTerm == old(searchTerm) && selectedCategory == old(selectedCategory)
    {
      Select(Some(product));
      isModalOpen := true;
    }

    /** The "new product" button: open the modal with nothing selected. The
        form is reset only if a product was selected before. */
    method HandleNew()
      requires Valid()
      ensures Valid()
      modifies this, form
      ensures isModalOpen && selectedProduct.None?
      ensures form.data == if old(selectedProduct).Some? then EmptyDraft else old(form.data)
      ensures products == old(products) && loading == old(loading)
      ensures showDeleteConfirm == old(showDeleteConfirm)
      ensures searchTerm == old(searchTerm) && selectedCategory == old(selectedCategory)
    {
      Select(None);
      isModalOpen := true;
    }

    /** The modal's `onClose`. */
    method CloseModal()
      requires Valid()
      ensures Valid()
      modifies this, form
      ensures !isModalOpen && selectedProduct.None?
      ensures form.data == if old(selectedProduct).Some? then EmptyDraft else old(form.data)
      ensures products == old(products) && loading == old(loading)
      ensures showDeleteConfirm == old(showDeleteConfirm)
      ensures searchTerm == old(searchTerm) && selectedCategory == old(selectedCategory)
    {
      isModalOpen := false;
      Select(None);
    }

    /** The trash button of a row: the pending slot now holds this id,
        replacing any earlier one. */
    method RequestDelete(id: string)
      requires Valid()
      ensures Valid()
      modifies this
      ensures showDeleteConfirm == Some(id)
      ensures products == old(products) && loading == old(loading) && isModalOpen == old(isModalOpen)
      ensures selectedProduct == old(selectedProduct)
      ensures searchTerm == old(searchTerm) && selectedCategory == old(selectedCategory)
    {
      showDeleteConfirm := Some(id);
    }

    /** The cancel button of the pending row: the slot is cleared and the
        list untouched. */
    method CancelDelete()
      requires Valid()
      ensures Valid()
      modifies this
      ensures showDeleteConfirm.None?
      ensures products == old(products) && loading == old(loading) && isModalOpen == old(isModalOpen)
      ensures selectedProduct == old(selectedProduct)
      ensures searchTerm == old(searchTerm) && selectedCategory == old(selectedCategory)
    {
      showDeleteConfirm := None;
    }

    /** `handleDelete`. */
    method HandleDelete(id: string)
      requires Valid()
      ensures Valid()
      modifies this
      ensures products == RemoveById(old(products), id)
      ensures showDeleteConfirm.None?
      ensures loading == old(loading) && isModalOpen == old(isModalOpen)
      ensures selectedProduct == old(selectedProduct)
      ensures searchTerm == old(searchTerm) && selectedCategory == old(selectedCategory)
    {
      products := RemoveById(products, id);
      showDeleteConfirm := None;
    }

    /** `handleSave`; `stamp` is the value of `Date.now()` at the call. */
    method HandleSave(data: ProductDraft, stamp: nat)
      requires Valid()
      ensures Valid()
      modifies this
      ensures products == Saved(old(products), selectedProduct, data, stamp)
      ensures loading == old(loading) && isModalOpen == old(isModalOpen)
      ensures selectedProduct == old(selectedProduct) && showDeleteConfirm == old(showDeleteConfirm)
      ensures searchTerm == old(searchTerm) && selectedCategory == old(selectedCategory)
    {
      if selectedProduct.Some? {
        products := ReplaceById(products, selectedProduct.value.id, data);
      } else {
        products := products + [NewProduct(data, stamp)];
      }
    }

    /** The modal's `handleSubmit`: the form as it stands is saved once, then
        the modal is closed. */
    method SubmitForm(stamp: nat)
      requires Valid()
      ensures Valid()
      modifies this, form
      ensures products == Saved(old(products), old(selectedProduct), old(form.data), stamp)
      ensures old(selectedProduct).Some? ==>
        && Value(old(form.data)).id == old(selectedProduct).value.id
        && |products| == |old(products)|
        && forall k :: 0 <= k < |products| ==>
             products[k] == if old(products)[k].id == old(selectedProduct).value.id
                            then Value(old(form.data)) else old(products)[k]
      ensures !isModalOpen && selectedProduct.None?
      ensures form.data == if old(selectedProduct).Some? then EmptyDraft else old(form.data)
      ensures loading == old(loading) && showDeleteConfirm == old(showDeleteConfirm)
      ensures searchTerm == old(searchTerm) && selectedCategory == old(selectedCategory)
    {
      HandleSave(form.data, stamp);
      CloseModal();
    }

    /** An interaction with the modal. It only reaches a handler when the
        modal is rendered: the screen is not loading and the modal is open. */
    method ModalAction(action: FormAction, stamp: nat)
      requires Valid()
      ensures Valid()
      requires WellFormed(action)
      modifies this, form
      ensures (old(loading) || !old(isModalOpen)) ==> unchanged(this, form)
      ensures !old(loading) && old(isModalOpen) ==>
        match action
        case AddIngredient => form.data == AddLine(old(form.data)) && unchanged(this)
        case RemoveIngredient(i) => form.data == RemoveLine(old(form.data), i) && unchanged(this)
        case UpdateIngredient(i, f, v) =>
          form.data == UpdateLine(old(form.data), i, f, v).GetOr(old(form.data)) && unchanged(this)
        case PickSupply(i, id) =>
          && form.data == (if FindSupply(id).Some?
                           then UpdateLine(old(form.data), i, "supply", SupplyValue(FindSupply(id).value)).GetOr(old(form.data))
                           else old(form.data))
          && unchanged(this)
        case PickCategory(v) =>
          form.data == ChooseCategory(old(form.data), v, Categories(products)) && unchanged(this)
        case EditField(e) => form.data == ApplyEdit(old(form.data), e) && unchanged(this)
        case Submit =>
          && products == Saved(old(products), old(selectedProduct), old(form.data), stamp)
          && !isModalOpen && selectedProduct.None?
          && form.data == (if old(selectedProduct).Some? then EmptyDraft else old(form.data))
          && loading == old(loading) && showDeleteConfirm == old(showDeleteConfirm)
          && searchTerm == old(searchTerm) && selectedCategory == old(selectedCategory)
        case Cancel =>
          && products == old(products) && !isModalOpen && selectedProduct.None?
          && form.data == (if old(selectedProduct).Some? then EmptyDraft else old(form.data))
          && loading == old(loading) && showDeleteConfirm == old(showDeleteConfirm)
          && searchTerm == old(searchTerm) && selectedCategory == old(selectedCategory)
    {
      if loading || !isModalOpen {
        return;
      }
      match action
      case AddIngredient => form.AddIngredient();
      case RemoveIngredient(i) => form.RemoveIngredient(i);
      case UpdateIngredient(i, f, v) => var _ := form.UpdateIngredient(i, f, v);
      case PickSupply(i, id) =>
        var supply := FindSupply(id);
        if supply.Some? {
          var _ := form.UpdateIngredient(i, "supply", SupplyValue(supply.value));
        }
      case PickCategory(v) => form.SelectCategory(v, Categories(products));
      case EditField(e) => form.Edit(e);
      case Submit => SubmitForm(stamp);
      case Cancel => CloseModal();
    }
  }

  /** Two delete requests and a confirmation on the pending row delete only
      the product of the second request. */
  method LastDeleteRequestWins(items: seq<MenuItem>, first: string, second: string)
    returns (remaining: seq<MenuItem>)
    ensures remaining == RemoveById(items, second)
  {
    var page := new CatalogPage();
    page.FinishLoad(Fetched(items));
    page.RequestDelete(first);
    page.RequestDelete(second);
    page.HandleDelete(page.showDeleteConfirm.value);
    remaining := page.products;
  }

  /** Opening the editor on a loaded product and saving without changes
      leaves the list as it was, when the list holds that product under its
      id. */
  method EditUnchangedKeepsList(items: seq<MenuItem>, k: nat) returns (remaining: seq<MenuItem>)
    requires k < |items|
    requires forall j :: 0 <= j < |items| && items[j].id == items[k].id ==> items[j] == items[k]
    ensures remaining == items
  {
    var page := new CatalogPage();
    page.FinishLoad(Fetched(items));
    page.HandleEdit(items[k]);
    page.ModalAction(Submit, 0);
    remaining := page.products;
    SaveUnchangedKeepsList(items, items[k]);
  }

  /** A failed request ends in an empty table, not a spinner. */
  method FailedLoadShowsNoRows() returns (rows: Option<seq<MenuItem>>)
    ensures rows == Some([])
  {
    var page := new CatalogPage();
    page.BeginLoad();
    page.FinishLoad(FetchFailed);
    rows := page.Rows();
  }

  /** After a product is created, the next "new product" form still holds
      what was typed for it: the initialisation effect does not run because
      the selected product stays `undefined` throughout. */
  method NewFormKeepsLastDraft(items: seq<MenuItem>, name: string, stamp: nat)
    returns (draft: ProductDraft, created: MenuItem)
    ensures created.denominacion == name && created.id == Decimal(stamp)
    ensures draft.denominacion == Some(name)
  {
    var page := new CatalogPage();
    page.FinishLoad(Fetched(items));
    page.HandleNew();
    page.ModalAction(EditField(SetName(name)), stamp);
    page.ModalAction(Submit, stamp);
    created := page.products[|items|];
    page.HandleNew();
    draft := page.form.data;
  }
}
