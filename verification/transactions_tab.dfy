/** The transactions tab: the add form with its kind-dependent category
    options, the payload built from the form, and the add / edit / delete
    handlers' updates of the transaction list. Service calls are abstract
    results; only what each handler does with a result is modelled. */
module TransactionsTab {
  import opened Wrappers
  import opened Records
  import opened Seqs

  /** The categories offered for a kind: exactly those of that kind, in order. */
  function OptionsFor(categories: seq<Category>, k: Kind): (r: seq<Category>)
    ensures IsSubsequence(r, categories)
    ensures KeptExactly(r, categories, OfKindFn(k))
    ensures forall c :: c in r <==> c in categories && c.tipo == k
  {
    FilterIsSubsequence(OfKindFn(k), categories);
    FilterKeptExactly(OfKindFn(k), categories);
    Filter(OfKindFn(k), categories)
  }

  /** The add form; `monto` is `None` while the box is empty (its
      `parseFloat` is then not a number). */
  datatype Form = Form(descripcion: string, monto: Option<int>, fecha: Day, tipo: Kind, categoria: string)

  function BlankForm(today: Day): Form {
    Form("", None, today, Gasto, "")
  }

  datatype State = State(
    transactions: seq<Transaction>,
    form: Form,
    options: seq<Category>,
    editing: Option<Transaction>,
    deletingId: Option<int>)

  /** The offered categories are those of the form's current kind. */
  ghost predicate OptionsMatchForm(st: State, categories: seq<Category>) {
    st.options == OptionsFor(categories, st.form.tipo)
  }

  /** The tab as first rendered: a blank `Gasto` form offering the `Gasto`
      categories. */
  function Init(transactions: seq<Transaction>, categories: seq<Category>, today: Day): (st: State)
    ensures st == State(transactions, BlankForm(today), st.options, None, None)
    ensures st.form.tipo == Gasto
    ensures forall c :: c in st.options <==> c in categories && c.tipo == Gasto
    ensures OptionsMatchForm(st, categories)
  {
    State(transactions, BlankForm(today), OptionsFor(categories, Gasto), None, None)
  }

  /** Choosing a kind sets it, clears the chosen category, and offers
      exactly the categories of that kind. */
  function ChangeKind(st: State, categories: seq<Category>, k: Kind): (st': State)
    ensures st' == st.(form := st.form.(tipo := k, categoria := ""), options := st'.options)
    ensures forall c :: c in st'.options <==> c in categories && c.tipo == k
    ensures OptionsMatchForm(st', categories)
  {
    st.(form := st.form.(tipo := k, categoria := ""), options := OptionsFor(categories, k))
  }

  /** What is sent for a new transaction: the category is replaced by its id. */
  datatype Payload = Payload(descripcion: string, monto: Option<int>, fecha: Day, tipo: Kind, categoriaId: int)

  /** The payload for the form, or none when no category carries the chosen
      name; the id is that of the first category with the name. */
  function PayloadFor(form: Form, categories: seq<Category>): (r: Option<Payload>)
    ensures r.None? <==> forall i :: 0 <= i < |categories| ==> categories[i].nombre != form.categoria
    ensures r.Some? ==> && r.value.descripcion == form.descripcion && r.value.monto == form.monto
                        && r.value.fecha == form.fecha && r.value.tipo == form.tipo
    ensures r.Some? ==> exists i :: 0 <= i < |categories| && categories[i].id == r.value.categoriaId &&
                                    categories[i].nombre == form.categoria &&
                                    forall j :: 0 <= j < i ==> categories[j].nombre != form.categoria
  {
    match FindFirst(NamedFn(form.categoria), categories)
    case None => None
    case Some(c) => Some(Payload(form.descripcion, form.monto, form.fecha, form.tipo, c.id))
  }

  /** The payload the add handler sends: the chosen name is looked up among
      the current categories of the form's kind, which are the offered
      options recomputed, so a category deleted or renamed meanwhile is not
      found. */
  function AddPayload(form: Form, categories: seq<Category>): Option<Payload> {
    PayloadFor(form, OptionsFor(categories, form.tipo))
  }

  /** Adding: with no current category of the form's kind and the chosen
      name nothing happens; success appends the returned record and resets
      the form and the options to `Gasto`; failure changes nothing. The
      category is looked up among the current categories of the form's
      kind rather than among all categories (see `PayloadMayNameOtherKind`). */
  function AddTransaction(st: State, categories: seq<Category>, today: Day,
                          service: Payload -> Result<Transaction, string>): (st': State)
    ensures AddPayload(st.form, categories).None? ==> st' == st
    ensures AddPayload(st.form, categories).Some? && service(AddPayload(st.form, categories).value).Ok? ==>
              && st' == st.(transactions := st.transactions + [service(AddPayload(st.form, categories).value).value],
                            form := BlankForm(today), options := st'.options)
              && (forall c :: c in st'.options <==> c in categories && c.tipo == Gasto)
              && OptionsMatchForm(st', categories)
    ensures AddPayload(st.form, categories).Some? && service(AddPayload(st.form, categories).value).Err? ==>
              st' == st
  {
    match AddPayload(st.form, categories)
    case None => st
    case Some(payload) =>
      match service(payload)
      case Ok(added) =>
        st.(transactions := st.transactions + [added], form := BlankForm(today),
            options := OptionsFor(categories, Gasto))
      case Err(_) => st
  }

  /** Editing: nothing without a transaction under edit; success replaces by
      id and closes the edit; failure changes nothing. */
  function EditTransaction(st: State, result: Result<Transaction, string>): (st': State)
    ensures st.editing.None? || result.Err? ==> st' == st
    ensures st.editing.Some? && result.Ok? ==>
              && |st'.transactions| == |st.transactions|
              && (forall i :: 0 <= i < |st.transactions| && st.transactions[i].id != result.value.id ==>
                    st'.transactions[i] == st.transactions[i])
              && (forall i :: 0 <= i < |st.transactions| && st.transactions[i].id == result.value.id ==>
                    st'.transactions[i] == result.value)
              && st' == st.(transactions := st'.transactions, editing := None)
  {
    if st.editing.None? then st
    else
      match result
      case Ok(updated) => st.(transactions := ReplaceById(st.transactions, TransactionId, updated), editing := None)
      case Err(_) => st
  }

  /** `!deletingTransactionId`: absent, or the falsy id 0. */
  predicate HasDeletion(st: State) {
    st.deletingId.Some? && st.deletingId.value != 0
  }

  /** Deleting: nothing without a chosen id; success removes every
      transaction with that id and keeps the rest in order. */
  function DeleteTransaction(st: State, result: Result<(), string>): (st': State)
    ensures !HasDeletion(st) || result.Err? ==> st' == st
    ensures HasDeletion(st) && result.Ok? ==>
              && KeptExactly(st'.transactions, st.transactions, OtherIdFn(TransactionId, st.deletingId.value))
              && (forall t :: t in st'.transactions <==> t in st.transactions && t.id != st.deletingId.value)
              && st' == st.(transactions := st'.transactions, deletingId := None)
  {
    if !HasDeletion(st) then st
    else
      match result
      case Ok(_) => st.(transactions := RemoveById(st.transactions, TransactionId, st.deletingId.value), deletingId := None)
      case Err(_) => st
  }

  /** The categories the edit dialog offers: those whose kind is the edited
      transaction's kind; none when nothing is under edit. */
  function EditOptions(categories: seq<Category>, editing: Option<Transaction>): (r: seq<Category>)
    ensures editing.None? ==> r == []
    ensures editing.Some? ==> KeptExactly(r, categories, OfKindFn(editing.value.tipo))
    ensures editing.Some? ==> forall c :: c in r <==> c in categories && c.tipo == editing.value.tipo
  {
    match editing
    case None => []
    case Some(t) => OptionsFor(categories, t.tipo)
  }

  /** The options follow the form's kind through every handler. */
  lemma HandlersKeepOptions(st: State, categories: seq<Category>, today: Day, k: Kind,
                            service: Payload -> Result<Transaction, string>,
                            updated: Result<Transaction, string>, deleted: Result<(), string>)
    requires OptionsMatchForm(st, categories)
    ensures OptionsMatchForm(ChangeKind(st, categories, k), categories)
    ensures OptionsMatchForm(AddTransaction(st, categories, today, service), categories)
    ensures OptionsMatchForm(EditTransaction(st, updated), categories)
    ensures OptionsMatchForm(DeleteTransaction(st, deleted), categories)
  {
  }

  /** With category names unique among the user's categories, the lookup
      over all categories also lands on a category of the form's kind once
      the name was picked from the options. Without that hypothesis it can
      miss (`PayloadMayNameOtherKind`). */
  lemma PayloadCategoryFromOptions(st: State, categories: seq<Category>)
    requires OptionsMatchForm(st, categories)
    requires forall i, j :: 0 <= i < j < |categories| ==> categories[i].nombre != categories[j].nombre
    requires exists c :: c in st.options && c.nombre == st.form.categoria
    ensures PayloadFor(st.form, categories).Some?
    ensures exists c :: c in categories && c.id == PayloadFor(st.form, categories).value.categoriaId &&
                        c.tipo == st.form.tipo
  {
    var c :| c in st.options && c.nombre == st.form.categoria;
    var p := PayloadFor(st.form, categories).value;
    var i :| 0 <= i < |categories| && categories[i].id == p.categoriaId && categories[i].nombre == st.form.categoria;
    var m :| 0 <= m < |categories| && categories[m] == c;
    assert m == i;
  }

  /** The edit dialog offers a transaction of kind `k` the same categories,
      in the same order, as the add form offers once its kind is set to `k`. */
  lemma EditOptionsAgreeWithForm(st: State, categories: seq<Category>, t: Transaction)
    ensures EditOptions(categories, Some(t)) == ChangeKind(st, categories, t.tipo).options
  {
    KeptExactlyIsFilter(EditOptions(categories, Some(t)), categories, OfKindFn(t.tipo));
    KeptExactlyIsFilter(ChangeKind(st, categories, t.tipo).options, categories, OfKindFn(t.tipo));
  }

  /** The lookup by name over all categories can land on a category of the
      other kind: two categories share a name, the form is on `Gasto` and
      the `Gasto` one was picked, yet the payload names the `Ingreso` one.
      Looking the name up among the categories of the form's kind picks
      the right one. */
  lemma PayloadMayNameOtherKind()
    ensures var categories := [Category(1, "Varios", Ingreso), Category(2, "Varios", Gasto)];
            var form := Form("x", Some(5), 0, Gasto, "Varios");
            && Category(2, "Varios", Gasto) in OptionsFor(categories, Gasto)
            && PayloadFor(form, categories) == Some(Payload("x", Some(5), 0, Gasto, 1))
            && categories[0].tipo != form.tipo
            && AddPayload(form, categories) == Some(Payload("x", Some(5), 0, Gasto, 2))
  {
    var categories := [Category(1, "Varios", Ingreso), Category(2, "Varios", Gasto)];
    var form := Form("x", Some(5), 0, Gasto, "Varios");
    assert categories[0].nombre == form.categoria;
    var options := OptionsFor(categories, Gasto);
    assert Filter(OfKindFn(Gasto), categories) == [categories[1]];
    assert options == [categories[1]];
    assert options[0].nombre == form.categoria;
  }

  /** Looked up among the current categories of the form's kind, the
      payload's category carries the chosen name and the form's kind,
      whatever the names of the categories. */
  lemma CandidatePayloadHasFormKind(form: Form, categories: seq<Category>)
    requires AddPayload(form, categories).Some?
    ensures exists c :: && c in categories && c.id == AddPayload(form, categories).value.categoriaId
                        && c.nombre == form.categoria && c.tipo == form.tipo
  {
    var options := OptionsFor(categories, form.tipo);
    var p := PayloadFor(form, options).value;
    var i :| 0 <= i < |options| && options[i].id == p.categoriaId && options[i].nombre == form.categoria;
    assert options[i] in options;
  }

  /** With unique category names the two lookups agree whenever the chosen
      name belongs to a current category of the form's kind, so the
      correction only matters when names repeat across kinds. */
  lemma LookupsAgreeOnUniqueNames(form: Form, categories: seq<Category>)
    requires forall i, j :: 0 <= i < j < |categories| ==> categories[i].nombre != categories[j].nombre
    requires exists c :: c in categories && c.nombre == form.categoria && c.tipo == form.tipo
    ensures AddPayload(form, categories) == PayloadFor(form, categories)
  {
    var options := OptionsFor(categories, form.tipo);
    var c :| c in categories && c.nombre == form.categoria && c.tipo == form.tipo;
    assert c in options;
    var k :| 0 <= k < |options| && options[k] == c;
    var p := PayloadFor(form, options).value;
    var q := PayloadFor(form, categories).value;
    var i :| 0 <= i < |options| && options[i].id == p.categoriaId && options[i].nombre == form.categoria;
    var j :| 0 <= j < |categories| && categories[j].id == q.categoriaId && categories[j].nombre == form.categoria;
    assert options[i] in options;
    var m :| 0 <= m < |categories| && categories[m] == options[i];
    assert m == j;
  }

  /** A name no current category carries any more (deleted or renamed while
      the options were not recomputed) is found by neither lookup. */
  lemma StaleNameFindsNothing(form: Form, categories: seq<Category>)
    requires forall i :: 0 <= i < |categories| ==> categories[i].nombre != form.categoria
    ensures PayloadFor(form, categories).None?
    ensures AddPayload(form, categories).None?
  {
    var options := OptionsFor(categories, form.tipo);
    forall i | 0 <= i < |options|
      ensures options[i].nombre != form.categoria
    {
      assert options[i] in options;
    }
  }
}
