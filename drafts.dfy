/** `Partial<MenuItem>`: a product record in which any property may be
    absent. The product editor's form state and the argument of the catalog's
    save handler have this type. `None` stands for an absent property. */
module Drafts {
  import opened Wrappers
  import opened Types

  datatype ProductDraft = ProductDraft(
    id: Option<string>,
    denominacion: Option<string>,
    categoriaId: Option<string>,
    categoria: Option<Category>,
    imagenes: Option<seq<string>>,
    precioVenta: Option<real>,
    descripcion: Option<string>,
    tiempoEstimadoMinutos: Option<int>,
    preparacion: Option<string>,
    detalles: Option<seq<ProductDetail>>)

  /** The object with no properties, `{}`. */
  const NoFields := ProductDraft(None, None, None, None, None, None, None, None, None, None)

  /** Every property is present. */
  predicate Complete(d: ProductDraft) {
    && d.id.Some? && d.denominacion.Some? && d.categoriaId.Some? && d.categoria.Some?
    && d.imagenes.Some? && d.precioVenta.Some? && d.descripcion.Some?
    && d.tiempoEstimadoMinutos.Some? && d.preparacion.Some? && d.detalles.Some?
  }

  /** A whole menu item seen as a partial one. */
  function AsDraft(m: MenuItem): (d: ProductDraft)
    ensures Complete(d)
  {
    ProductDraft(Some(m.id), Some(m.denominacion), Some(m.categoriaId), Some(m.categoria),
                 Some(m.imagenes), Some(m.precioVenta), Some(m.descripcion),
                 Some(m.tiempoEstimadoMinutos), Some(m.preparacion), Some(m.detalles))
  }

  /** The menu item a complete draft describes. */
  function Value(d: ProductDraft): (m: MenuItem)
    requires Complete(d)
    ensures AsDraft(m) == d
  {
    MenuItem(d.id.value, d.denominacion.value, d.categoriaId.value, d.categoria.value,
             d.imagenes.value, d.precioVenta.value, d.descripcion.value,
             d.tiempoEstimadoMinutos.value, d.preparacion.value, d.detalles.value)
  }

  /** Seeing a menu item as a draft loses nothing. */
  lemma ValueOfAsDraft(m: MenuItem)
    ensures Value(AsDraft(m)) == m
  {
  }
}
