/** The client-side records shared by the dashboard and its tabs. Dates are
    ordered integer day keys and amounts are integer cents. */
module Records {

  /** A calendar day as an ordered integer key. */
  type Day = int

  /** The two kinds of money movement, by the names the application stores. */
  datatype Kind = Ingreso | Gasto

  /** A transaction as the client holds it: `categoria` is the category's
      name, joined in by the server. */
  datatype Transaction = Transaction(
    id: int,
    descripcion: string,
    monto: int,
    fecha: Day,
    tipo: Kind,
    categoria: string)

  datatype Category = Category(id: int, nombre: string, tipo: Kind)

  /** The add-category form: a name and a kind. */
  datatype CategoryForm = CategoryForm(nombre: string, tipo: Kind)

  /** The add-category form as every component resets it: no name, `Gasto`. */
  const BlankCategoryForm := CategoryForm("", Gasto)

  /** A kind selector with the wildcard `Todos` ("all"). */
  datatype KindFilter = Todos | Only(kind: Kind)

  function TransactionId(t: Transaction): int { t.id }
  function CategoryId(c: Category): int { c.id }
  predicate CategoryOfKind(k: Kind, c: Category) { c.tipo == k }

  /** The test of `categories.filter(category => category.tipo === k)`. */
  function OfKindFn(k: Kind): Category -> bool {
    (c: Category) => CategoryOfKind(k, c)
  }

  /** The test of `categories.find(c => c.nombre === name)`. */
  function NamedFn(name: string): Category -> bool {
    (c: Category) => c.nombre == name
  }
}
