/** The finance dashboard's selector: filtering the transaction list by an
    inclusive date range, a kind and a category name, and the income,
    expense and balance totals over what remains; plus the dashboard's own
    list updates when a transaction or a category is added. */
module Dashboard {
  import opened Wrappers
  import opened Records
  import opened Seqs

  /** A date range picker value; either end may be unset. */
  datatype DateRange = DateRange(from: Option<Day>, to: Option<Day>)

  datatype Filters = Filters(dateRange: DateRange, kind: KindFilter, category: string)

  /** The category filter's wildcard. */
  const AllCategories: string := "Todas"

  /** The filters as the "clear" button leaves them. */
  const Cleared: Filters := Filters(DateRange(None, None), Todos, AllCategories)

  /** The range constrains a date only when both ends are set, and then
      includes both ends. */
  predicate DateInRange(r: DateRange, d: Day) {
    if r.from.Some? && r.to.Some? then r.from.value <= d <= r.to.value else true
  }

  predicate KindMatches(k: KindFilter, t: Transaction) {
    k == Todos || t.tipo == k.kind
  }

  predicate CategoryMatches(category: string, t: Transaction) {
    category == AllCategories || t.categoria == category
  }

  /** The conjunctive test a transaction must pass to stay visible. */
  predicate Keep(f: Filters, t: Transaction) {
    DateInRange(f.dateRange, t.fecha) && KindMatches(f.kind, t) && CategoryMatches(f.category, t)
  }

  function KeepFn(f: Filters): Transaction -> bool {
    (t: Transaction) => Keep(f, t)
  }

  /** The visible transactions: exactly those passing every active filter,
      taken from `ts` without reordering. */
  function Visible(ts: seq<Transaction>, f: Filters): (r: seq<Transaction>)
    ensures IsSubsequence(r, ts)
    ensures KeptExactly(r, ts, KeepFn(f))
    ensures forall t :: t in r <==> t in ts && DateInRange(f.dateRange, t.fecha) &&
                                    KindMatches(f.kind, t) && CategoryMatches(f.category, t)
  {
    FilterIsSubsequence(KeepFn(f), ts);
    FilterKeptExactly(KeepFn(f), ts);
    Filter(KeepFn(f), ts)
  }

  predicate IsIncome(t: Transaction) { t.tipo == Ingreso }
  predicate IsExpense(t: Transaction) { t.tipo == Gasto }
  function Amount(t: Transaction): int { t.monto }

  /** What a transaction adds to the balance: its amount for income, the
      negated amount for an expense. */
  function Signed(t: Transaction): int {
    if t.tipo == Ingreso then t.monto else -t.monto
  }

  function TotalIncome(rows: seq<Transaction>): int {
    Sum(Amount, Filter(IsIncome, rows))
  }

  function TotalExpenses(rows: seq<Transaction>): int {
    Sum(Amount, Filter(IsExpense, rows))
  }

  function Balance(rows: seq<Transaction>): int {
    TotalIncome(rows) - TotalExpenses(rows)
  }

  /** The selector's output: the visible rows and their three totals. */
  datatype Summary = Summary(visible: seq<Transaction>, income: int, expenses: int, balance: int)

  function Summarize(ts: seq<Transaction>, f: Filters): (s: Summary)
    ensures s.visible == Visible(ts, f)
    ensures forall t :: t in s.visible <==> t in ts && Keep(f, t)
    ensures s.income == Sum(Amount, Filter(IsIncome, s.visible))
    ensures s.expenses == Sum(Amount, Filter(IsExpense, s.visible))
    ensures s.balance == s.income - s.expenses
    ensures s.income + s.expenses == Sum(Amount, s.visible)
    ensures s.balance == Sum(Signed, s.visible)
    ensures f.kind == Only(Gasto) ==> s.income == 0 && s.balance == -s.expenses
    ensures f.kind == Only(Ingreso) ==> s.expenses == 0 && s.balance == s.income
  {
    var rows := Visible(ts, f);
    IncomePlusExpenses(rows);
    BalanceIsSignedSum(rows);
    KindFilterTotals(ts, f);
    Summary(rows, TotalIncome(rows), TotalExpenses(rows), Balance(rows))
  }

  /** Every transaction is income or expense, so the two totals together
      are the sum of all amounts. */
  lemma IncomePlusExpenses(rows: seq<Transaction>)
    ensures TotalIncome(rows) + TotalExpenses(rows) == Sum(Amount, rows)
  {
    SumPartition(Amount, IsIncome, IsExpense, rows);
  }

  /** The balance is the signed sum of the rows. */
  lemma {:induction false} BalanceIsSignedSum(rows: seq<Transaction>)
    ensures Balance(rows) == Sum(Signed, rows)
  {
    if |rows| > 0 {
      BalanceIsSignedSum(rows[1..]);
    }
  }

  /** With the kind filter on `Gasto`, no income is visible. */
  lemma ExpenseFilterHasNoIncome(ts: seq<Transaction>, f: Filters)
    requires f.kind == Only(Gasto)
    ensures TotalIncome(Visible(ts, f)) == 0
    ensures TotalExpenses(Visible(ts, f)) == Sum(Amount, Visible(ts, f))
  {
    var rows := Visible(ts, f);
    FilterNoneKept(IsIncome, rows);
    IncomePlusExpenses(rows);
  }

  /** With the kind filter on `Ingreso`, no expense is visible. */
  lemma IncomeFilterHasNoExpenses(ts: seq<Transaction>, f: Filters)
    requires f.kind == Only(Ingreso)
    ensures TotalExpenses(Visible(ts, f)) == 0
    ensures TotalIncome(Visible(ts, f)) == Sum(Amount, Visible(ts, f))
  {
    var rows := Visible(ts, f);
    FilterNoneKept(IsExpense, rows);
    IncomePlusExpenses(rows);
  }

  lemma KindFilterTotals(ts: seq<Transaction>, f: Filters)
    ensures f.kind == Only(Gasto) ==> TotalIncome(Visible(ts, f)) == 0
    ensures f.kind == Only(Ingreso) ==> TotalExpenses(Visible(ts, f)) == 0
  {
    if f.kind == Only(Gasto) {
      ExpenseFilterHasNoIncome(ts, f);
    } else if f.kind == Only(Ingreso) {
      IncomeFilterHasNoExpenses(ts, f);
    }
  }

  /** Cleared filters show the whole list, in order. */
  lemma ClearedShowsAll(ts: seq<Transaction>)
    ensures Visible(ts, Cleared) == ts
  {
    FilterAllKept(KeepFn(Cleared), ts);
  }

  /** A range with only one end set filters exactly as no range at all. */
  lemma OneBoundIsNoBound(ts: seq<Transaction>, f: Filters)
    requires f.dateRange.from.None? || f.dateRange.to.None?
    ensures Visible(ts, f) == Visible(ts, f.(dateRange := DateRange(None, None)))
  {
    FilterSameOn(KeepFn(f), KeepFn(f.(dateRange := DateRange(None, None))), ts);
  }

  /** A transaction dated on either end of a set range passes the date test. */
  lemma RangeIsInclusive(f: Filters, t: Transaction)
    requires f.dateRange.from.Some? && f.dateRange.to.Some?
    requires f.dateRange.from.value <= f.dateRange.to.value
    requires t.fecha == f.dateRange.from.value || t.fecha == f.dateRange.to.value
    ensures Keep(f, t) <==> KindMatches(f.kind, t) && CategoryMatches(f.category, t)
  {
  }

  /** A worked instance: income 100 on day 5 and an expense of 40 on day 10. */
  lemma TwoTransactionExample()
    ensures var ts := [Transaction(1, "Sueldo", 100, 5, Ingreso, "Trabajo"),
                       Transaction(2, "Cena", 40, 10, Gasto, "Comida")];
            && Visible(ts, Cleared.(kind := Only(Gasto))) == [ts[1]]
            && Summarize(ts, Cleared) == Summary(ts, 100, 40, 60)
  {
    var ts := [Transaction(1, "Sueldo", 100, 5, Ingreso, "Trabajo"),
               Transaction(2, "Cena", 40, 10, Gasto, "Comida")];
    ClearedShowsAll(ts);
    assert Filter(IsIncome, ts) == [ts[0]];
    assert Filter(IsExpense, ts) == [ts[1]];
  }

  // ---------------------------------------------------------------------
  // The dashboard's own add handlers.

  /** The add-transaction form; `amount` is `None` while the box is empty. */
  datatype TxForm = TxForm(description: string, amount: Option<int>, date: Day, kind: Kind, category: string)

  /** The form as it is reset: everything empty, today's date, `Gasto`. */
  function BlankTxForm(today: Day): TxForm {
    TxForm("", None, today, Gasto, "")
  }

  datatype State = State(
    userId: Option<string>,
    transactions: seq<Transaction>,
    categories: seq<Category>,
    newTransaction: TxForm,
    newCategory: CategoryForm,
    filters: Filters,
    error: string)

  /** `if (!userId) return`: a null or empty id stops a handler. */
  predicate HasUser(st: State) {
    st.userId.Some? && st.userId.value != ""
  }

  /** The body posted for a new transaction: the form, the user, and the id
      of the category named in the form, if any. */
  datatype TxBody = TxBody(form: TxForm, usuarioId: string, categoriaId: Option<int>)

  datatype CategoryBody = CategoryBody(form: CategoryForm, usuarioId: string)

  /** The request the add-transaction handler sends; none without a user. */
  function TxRequest(st: State): (r: Option<TxBody>)
    ensures r.Some? <==> HasUser(st)
    ensures r.Some? ==> r.value.form == st.newTransaction && r.value.usuarioId == st.userId.value
    ensures r.Some? ==> (r.value.categoriaId.None? <==>
                         forall i :: 0 <= i < |st.categories| ==> st.categories[i].nombre != st.newTransaction.category)
    ensures r.Some? && r.value.categoriaId.Some? ==>
              exists i :: 0 <= i < |st.categories| && st.categories[i].id == r.value.categoriaId.value &&
                          st.categories[i].nombre == st.newTransaction.category &&
                          forall j :: 0 <= j < i ==> st.categories[j].nombre != st.newTransaction.category
  {
    if !HasUser(st) then None
    else
      var found := FindFirst(NamedFn(st.newTransaction.category), st.categories);
      Some(TxBody(st.newTransaction, st.userId.value,
                  if found.Some? then Some(found.value.id) else None))
  }

  /** Adding a transaction: without a user nothing happens; a successful
      call appends the returned record and resets the form; a failed one
      only sets the error banner. */
  function AddTransaction(st: State, today: Day, service: TxBody -> Result<Transaction, string>): (st': State)
    ensures !HasUser(st) ==> st' == st
    ensures HasUser(st) && service(TxRequest(st).value).Ok? ==>
              st' == st.(transactions := st.transactions + [service(TxRequest(st).value).value],
                         newTransaction := BlankTxForm(today))
    ensures HasUser(st) && service(TxRequest(st).value).Err? ==>
              st' == st.(error := "Error adding transaction")
  {
    match TxRequest(st)
    case None => st
    case Some(body) =>
      match service(body)
      case Ok(added) => st.(transactions := st.transactions + [added], newTransaction := BlankTxForm(today))
      case Err(_) => st.(error := "Error adding transaction")
  }

  /** Adding a category: the same shape as adding a transaction. */
  function AddCategory(st: State, service: CategoryBody -> Result<Category, string>): (st': State)
    ensures !HasUser(st) ==> st' == st
    ensures HasUser(st) && service(CategoryBody(st.newCategory, st.userId.value)).Ok? ==>
              st' == st.(categories := st.categories + [service(CategoryBody(st.newCategory, st.userId.value)).value],
                         newCategory := BlankCategoryForm)
    ensures HasUser(st) && service(CategoryBody(st.newCategory, st.userId.value)).Err? ==>
              st' == st.(error := "Error adding category")
  {
    if !HasUser(st) then st
    else
      match service(CategoryBody(st.newCategory, st.userId.value))
      case Ok(added) => st.(categories := st.categories + [added], newCategory := BlankCategoryForm)
      case Err(_) => st.(error := "Error adding category")
  }

  /** A category added under a new name is the one a later transaction
      request naming it points to, and adding it leaves the totals alone. */
  lemma AddedCategoryIsFound(st: State, service: CategoryBody -> Result<Category, string>)
    requires HasUser(st) && service(CategoryBody(st.newCategory, st.userId.value)).Ok?
    requires var added := service(CategoryBody(st.newCategory, st.userId.value)).value;
             forall i :: 0 <= i < |st.categories| ==> st.categories[i].nombre != added.nombre
    ensures var added := service(CategoryBody(st.newCategory, st.userId.value)).value;
            var st' := AddCategory(st, service);
            var asking := st'.(newTransaction := st'.newTransaction.(category := added.nombre));
            && TxRequest(asking).value.categoriaId == Some(added.id)
            && Summarize(st'.transactions, st'.filters) == Summarize(st.transactions, st.filters)
  {
    var added := service(CategoryBody(st.newCategory, st.userId.value)).value;
    var st' := AddCategory(st, service);
    var asking := st'.(newTransaction := st'.newTransaction.(category := added.nombre));
    var last := |st.categories|;
    assert asking.categories[last] == added;
    var r := TxRequest(asking).value;
    var i :| 0 <= i < |asking.categories| && asking.categories[i].id == r.categoriaId.value &&
             asking.categories[i].nombre == added.nombre &&
             forall j :: 0 <= j < i ==> asking.categories[j].nombre != added.nombre;
    assert i == last;
  }

  /** Clearing the filters makes every transaction visible again. */
  function ClearFilters(st: State): (st': State)
    ensures st'.filters == Filters(DateRange(None, None), Todos, "Todas")
    ensures st' == st.(filters := st'.filters)
    ensures Visible(st'.transactions, st'.filters) == st.transactions
  {
    ClearedShowsAll(st.transactions);
    st.(filters := Cleared)
  }

  /** An appended transaction changes the totals by its own amount exactly
      when it passes the filters, and the visible list by itself. */
  lemma AppendUpdatesTotals(ts: seq<Transaction>, f: Filters, t: Transaction)
    ensures Visible(ts + [t], f) == Visible(ts, f) + (if Keep(f, t) then [t] else [])
    ensures Sum(Signed, Visible(ts + [t], f)) ==
            Sum(Signed, Visible(ts, f)) + (if Keep(f, t) then Signed(t) else 0)
  {
    FilterAppend(KeepFn(f), ts, [t]);
    assert Filter(KeepFn(f), [t]) == if Keep(f, t) then [t] else [];
    SumAppend(Signed, Visible(ts, f), if Keep(f, t) then [t] else []);
  }

  /** After a successful add, the dashboard's balance moves by the added
      transaction's signed amount when it is visible under the current
      filters, and stays put otherwise. */
  lemma AddTransactionMovesBalance(st: State, today: Day, service: TxBody -> Result<Transaction, string>)
    requires HasUser(st) && service(TxRequest(st).value).Ok?
    ensures var t := service(TxRequest(st).value).value;
            var st' := AddTransaction(st, today, service);
            Summarize(st'.transactions, st'.filters).balance ==
            Summarize(st.transactions, st.filters).balance + (if Keep(st.filters, t) then Signed(t) else 0)
  {
    var t := service(TxRequest(st).value).value;
    AppendUpdatesTotals(st.transactions, st.filters, t);
  }
}
