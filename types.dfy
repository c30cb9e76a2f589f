/** The record types of the back office that the catalog screen, the product
    editor and the route table work with. Each datatype follows one interface
    of the type declarations; prices are exact `real`s and quantities, minutes
    and stock levels are `int`s. */
module Types {
  import opened Wrappers

  /** The four roles a session can carry. */
  datatype Role = Admin | Manager | Employee | Delivery {

    /** The role as the identity provider spells it. */
    function Name(): (s: string)
      ensures s in {"admin", "manager", "employee", "delivery"}
    {
      match this
      case Admin => "admin"
      case Manager => "manager"
      case Employee => "employee"
      case Delivery => "delivery"
    }
  }

  /** A category reference: its id and its display name (`denominacion`). */
  datatype Category = Category(id: string, denominacion: string)

  datatype SupplyStatus = Active | Inactive

  /** A raw stock item an ingredient line can refer to. */
  datatype Supply = Supply(
    id: string,
    denominacion: string,
    categoriaId: string,
    categoria: Option<Category>,
    unidadMedida: string,
    precioCompra: real,
    stockActual: int,
    stockMinimo: Option<int>,
    status: Option<SupplyStatus>)

  /** The `tipo` tag of an ingredient line: a raw supply or a sub-product. */
  datatype DetailKind = Insumo | Producto

  /** What an ingredient line refers to: a supply or another menu item. */
  datatype DetailItem = SupplyItem(supply: Supply) | ProductItem(product: MenuItem)

  /** One ingredient line (`detalle`) of a menu item. */
  datatype ProductDetail = ProductDetail(tipo: DetailKind, cantidad: int, item: DetailItem)

  /** A product of the catalog. The legacy compatibility fields of the
      interface are not modelled. */
  datatype MenuItem = MenuItem(
    id: string,
    denominacion: string,
    categoriaId: string,
    categoria: Category,
    imagenes: seq<string>,
    precioVenta: real,
    descripcion: string,
    tiempoEstimadoMinutos: int,
    preparacion: string,
    detalles: seq<ProductDetail>)
}
