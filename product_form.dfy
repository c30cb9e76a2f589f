/** The product editor modal: its form state (a partial product record), the
    way that state is initialised from the product being edited, and the
    handlers that edit the ingredient lines, the category and the other
    fields. */
module ProductModal {
  import opened Wrappers
  import opened Types
  import opened Drafts
  import Strings
  import Sequences

  /** The fixed supply list the ingredient selector offers. */
  const MockSupplies: seq<Supply> := [
    Supply("1", "Harina", "1", None, "Gramos", 50.0, 100, None, None),
    Supply("2", "Manteca", "1", None, "Gramos", 80.0, 50, None, None),
    Supply("3", "Queso Mozzarella", "2", None, "Gramos", 120.0, 200, None, None)
  ]

  /** The form of a new product: empty texts, zero price and time, no
      ingredient lines; id, category reference and images are absent. */
  const EmptyDraft: ProductDraft :=
    ProductDraft(None, Some(""), Some(""), None, None, Some(0.0), Some(""), Some(0), Some(""), Some([]))

  /** What the form holds once it has been initialised for `product`: a copy
      of the product when one is being edited, the empty form otherwise. */
  function InitialDraft(product: Option<MenuItem>): (d: ProductDraft)
    ensures product.Some? ==> Complete(d) && Value(d) == product.value
    ensures product.None? ==>
      && d.id.None? && d.categoria.None? && d.imagenes.None?
      && d.denominacion == Some("") && d.descripcion == Some("") && d.categoriaId == Some("")
      && d.preparacion == Some("") && d.precioVenta == Some(0.0)
      && d.tiempoEstimadoMinutos == Some(0) && Lines(d) == []
  {
    match product
    case Some(p) => AsDraft(p)
    case None => EmptyDraft
  }

  /** The ingredient lines of the form, `formData.detalles || []`. */
  function Lines(d: ProductDraft): seq<ProductDetail> {
    d.detalles.GetOr([])
  }

  /** The line a click on "add supply" appends: a raw supply, quantity 0,
      the first supply of the list. */
  const NewLine: ProductDetail := ProductDetail(Insumo, 0, SupplyItem(MockSupplies[0]))

  /** `addIngredient`. */
  function AddLine(d: ProductDraft): (r: ProductDraft)
    ensures |Lines(r)| == |Lines(d)| + 1
    ensures Lines(r)[..|Lines(d)|] == Lines(d)
    ensures Lines(r)[|Lines(d)|] == NewLine
    ensures r.detalles.Some? && r.(detalles := d.detalles) == d
  {
    d.(detalles := Some(Lines(d) + [NewLine]))
  }

  /** `removeIngredient(index)`: `splice(index, 1)` on a copy of the lines. */
  function RemoveLine(d: ProductDraft, index: int): (r: ProductDraft)
    ensures 0 <= index < |Lines(d)| ==> Lines(r) == Lines(d)[..index] + Lines(d)[index + 1..]
    ensures index >= |Lines(d)| ==> Lines(r) == Lines(d)
    ensures index < 0 && Lines(d) != [] ==>
      var k := if |Lines(d)| + index >= 0 then |Lines(d)| + index else 0;
      Lines(r) == Lines(d)[..k] + Lines(d)[k + 1..]
    ensures r.detalles.Some? && r.(detalles := d.detalles) == d
  {
    var lines := Lines(d);
    var r := d.(detalles := Some(Sequences.Splice(lines, index)));
    var k := Sequences.SpliceStart(|lines|, index);
    assert k < |lines| ==> Lines(r) == lines[..k] + lines[k + 1..];
    r
  }

  /** Removing twice at the same index, as a stale index would, removes the
      line that was there and the line that followed it. */
  lemma RemoveLineTwice(d: ProductDraft, index: nat)
    requires index + 1 < |Lines(d)|
    ensures Lines(RemoveLine(RemoveLine(d, index), index)) == Lines(d)[..index] + Lines(d)[index + 2..]
  {
    var once := RemoveLine(d, index);
    assert Lines(once) == Lines(d)[..index] + Lines(d)[index + 1..];
  }

  /** The value an ingredient-line update carries: the supply chosen in the
      selector, or the quantity typed in. */
  datatype LineValue = SupplyValue(supply: Supply) | QuantityValue(quantity: int)

  /** The field names `updateIngredient` acts on. */
  predicate KnownField(field: string) {
    field == "supply" || field == "cantidad"
  }

  /** The callers pass a supply with "supply" and a number with "cantidad". */
  predicate FitsField(field: string, value: LineValue) {
    (field == "supply" ==> value.SupplyValue?) && (field == "cantidad" ==> value.QuantityValue?)
  }

  /** `updateIngredient(index, field, value)`. The lines are copied; for
      "supply" the line's item is replaced, for "cantidad" its quantity;
      any other field name changes no line. With a known field and an index
      that names no line, `updateIngredient` dereferences `undefined` and
      throws: the result is then `None` and the form is not updated.
      (`updateIngredient` assigns into the line object itself, which the copied
      array still shares with the form state it came from and, when editing,
      with the product in the catalog list; the model uses values.) */
  function UpdateLine(d: ProductDraft, index: int, field: string, value: LineValue): (r: Option<ProductDraft>)
    requires FitsField(field, value)
    ensures r.None? <==> KnownField(field) && !(0 <= index < |Lines(d)|)
    ensures r.Some? ==> r.value.detalles.Some? && r.value.(detalles := d.detalles) == d
    ensures r.Some? ==> |Lines(r.value)| == |Lines(d)|
    ensures r.Some? ==> forall j :: 0 <= j < |Lines(d)| && j != index ==> Lines(r.value)[j] == Lines(d)[j]
    ensures r.Some? && field == "supply" ==>
      Lines(r.value)[index] == Lines(d)[index].(item := SupplyItem(value.supply))
    ensures r.Some? && field == "cantidad" ==>
      Lines(r.value)[index] == Lines(d)[index].(cantidad := value.quantity)
    ensures r.Some? && !KnownField(field) ==> Lines(r.value) == Lines(d)
  {
    var lines := Lines(d);
    if !KnownField(field) then Some(d.(detalles := Some(lines)))
    else if !(0 <= index < |lines|) then None
    else if field == "supply" then
      Some(d.(detalles := Some(lines[index := lines[index].(item := SupplyItem(value.supply))])))
    else
      Some(d.(detalles := Some(lines[index := lines[index].(cantidad := value.quantity)])))
  }

  /** `mockSupplies.find(s => s.id === id)`: the first supply of the list
      with that id, if any. */
  function FindSupply(id: string): (r: Option<Supply>)
    ensures r.Some? ==> r.value in MockSupplies && r.value.id == id
    ensures r.None? <==> forall k :: 0 <= k < |MockSupplies| ==> MockSupplies[k].id != id
  {
    if MockSupplies[0].id == id then Some(MockSupplies[0])
    else if MockSupplies[1].id == id then Some(MockSupplies[1])
    else if MockSupplies[2].id == id then Some(MockSupplies[2])
    else None
  }

  /** The display name the category selector stores for option value
      `value`: `categories[parseInt(value) - 1] || ''`. */
  function CategoryName(value: string, categories: seq<string>): (name: string)
    ensures name == "" || name in categories
  {
    match Strings.ParseInt(value)
    case Some(n) => if 1 <= n <= |categories| then categories[n - 1] else ""
    case None => ""
  }

  /** The option for the k-th category (value `k`, 1-based) selects that
      category's name. */
  lemma CategoryOfOption(categories: seq<string>, k: nat)
    requires 1 <= k <= |categories|
    ensures CategoryName(Strings.Decimal(k), categories) == categories[k - 1]
  {
    Strings.ParseDecimal(k);
  }

  /** The placeholder option (value "") selects no name. */
  lemma CategoryOfPlaceholder(categories: seq<string>)
    ensures CategoryName("", categories) == ""
  {
  }

  /** The category selector's `onChange` with option value `value`. */
  function ChooseCategory(d: ProductDraft, value: string, categories: seq<string>): (r: ProductDraft)
    ensures r.categoriaId == Some(value)
    ensures r.categoria.Some? && r.categoria.value.id == value
    ensures r.categoria.value.denominacion == CategoryName(value, categories)
    ensures r.(categoriaId := d.categoriaId, categoria := d.categoria) == d
  {
    d.(categoriaId := Some(value), categoria := Some(Category(value, CategoryName(value, categories))))
  }

  /** An edit of one of the plain inputs of the form. */
  datatype FieldEdit =
    | SetName(name: string)
    | SetDescription(description: string)
    | SetPrice(price: real)
    | SetMinutes(minutes: int)
    | SetPreparation(preparation: string)

  /** The `onChange` handlers of the plain inputs: each sets one property. */
  function ApplyEdit(d: ProductDraft, e: FieldEdit): (r: ProductDraft)
    ensures r.id == d.id && r.categoriaId == d.categoriaId && r.categoria == d.categoria
    ensures r.imagenes == d.imagenes && Lines(r) == Lines(d)
    ensures e.SetName? ==> r == d.(denominacion := Some(e.name))
    ensures e.SetDescription? ==> r == d.(descripcion := Some(e.description))
    ensures e.SetPrice? ==> r == d.(precioVenta := Some(e.price))
    ensures e.SetMinutes? ==> r == d.(tiempoEstimadoMinutos := Some(e.minutes))
    ensures e.SetPreparation? ==> r == d.(preparacion := Some(e.preparation))
  {
    match e
    case SetName(s) => d.(denominacion := Some(s))
    case SetDescription(s) => d.(descripcion := Some(s))
    case SetPrice(p) => d.(precioVenta := Some(p))
    case SetMinutes(m) => d.(tiempoEstimadoMinutos := Some(m))
    case SetPreparation(s) => d.(preparacion := Some(s))
  }

  /** What the modal shows: its title and the form it binds. */
  datatype ModalView = ModalView(title: string, form: ProductDraft)

  /** The modal renders nothing when it is not open. */
  function Render(isOpen: bool, product: Option<MenuItem>, d: ProductDraft): (v: Option<ModalView>)
    ensures v.Some? <==> isOpen
    ensures v.Some? ==> v.value.form == d
    ensures v.Some? ==> v.value.title == if product.Some? then "Editar Producto" else "Nuevo Producto"
  {
    if !isOpen then None
    else Some(ModalView(if product.Some? then "Editar Producto" else "Nuevo Producto", d))
  }

  /** The modal's form state (`formData`). */
  class ProductForm {
    var data: ProductDraft

    /** The state's initial value. */
    constructor ()
      ensures data == EmptyDraft
    {
      data := EmptyDraft;
    }

    /** The initialisation effect, run whenever the product prop changes. */
    method Reset(product: Option<MenuItem>)
      modifies this
      ensures data == InitialDraft(product)
    {
      data := InitialDraft(product);
    }

    method AddIngredient()
      modifies this
      ensures data == AddLine(old(data))
    {
      data := AddLine(data);
    }

    method RemoveIngredient(index: int)
      modifies this
      ensures data == RemoveLine(old(data), index)
    {
      data := RemoveLine(data, index);
    }

    /** Returns false when `updateIngredient` would throw; the form is then
        left as it was. */
    method UpdateIngredient(index: int, field: string, value: LineValue) returns (ok: bool)
      requires FitsField(field, value)
      modifies this
      ensures ok == UpdateLine(old(data), index, field, value).Some?
      ensures data == UpdateLine(old(data), index, field, value).GetOr(old(data))
    {
      var r := UpdateLine(data, index, field, value);
      ok := r.Some?;
      if ok {
        data := r.value;
      }
    }

    method SelectCategory(value: string, categories: seq<string>)
      modifies this
      ensures data == ChooseCategory(old(data), value, categories)
    {
      data := ChooseCategory(data, value, categories);
    }

    method Edit(e: FieldEdit)
      modifies this
      ensures data == ApplyEdit(old(data), e)
    {
      data := ApplyEdit(data, e);
    }
  }
}
