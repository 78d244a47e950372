/** `GET /api/transactions` (the owner's transactions under optional date,
    kind and category filters, newest first) and `POST /api/transactions`
    (validated insert and read-back). The SQL text is modelled as a list of
    WHERE clauses with their positional parameters, and executing it as
    binding the parameters in order and testing each joined row. */
module TransactionsRoute {
  import opened Wrappers
  import opened Seqs
  import opened Sorting
  import opened Store
  import opened Http

  /** A transaction row with its category's name from the LEFT JOIN
      (`None` when the category no longer exists). */
  datatype JoinedTx = JoinedTx(tx: TxRow, categoriaNombre: Option<string>)

  function Join(db: Db, t: TxRow): JoinedTx {
    match CategoryById(db, t.categoriaId)
    case Some(c) => JoinedTx(t, Some(c.nombre))
    case None => JoinedTx(t, None)
  }

  /** The joined table, one row per transaction (category ids are unique in
      a valid store, so the join never duplicates a row). */
  function JoinAll(db: Db): seq<JoinedTx> {
    seq(|db.transactions|, i requires 0 <= i < |db.transactions| => Join(db, db.transactions[i]))
  }

  // ---------------------------------------------------------------------
  // GET

  /** The query string: `userId`, `fromDate`, `toDate`, `type`, `category`. */
  datatype ListQuery = ListQuery(
    userId: Option<int>,
    fromDate: Option<Day>,
    toDate: Option<Day>,
    kind: Option<string>,
    category: Option<string>)

  predicate DatesActive(q: ListQuery) {
    q.fromDate.Some? && q.toDate.Some?
  }

  predicate KindActive(q: ListQuery) {
    TruthyText(q.kind) && q.kind.value != "Todos"
  }

  predicate CategoryActive(q: ListQuery) {
    TruthyText(q.category) && q.category.value != "Todas"
  }

  /** The WHERE conditions the handler can emit. */
  datatype Clause =
    | OwnerIs        // t.usuario_id = ?
    | DateBetween    // t.fecha BETWEEN ? AND ?
    | KindIs         // t.tipo = ?
    | CategoryNamed  // c.nombre = ?

  datatype Param = PInt(i: int) | PDay(d: Day) | PText(s: string)

  datatype Sql = Sql(clauses: seq<Clause>, params: seq<Param>)

  /** The number of `?` placeholders a clause carries. */
  function Arity(c: Clause): nat {
    if c == DateBetween then 2 else 1
  }

  function Placeholders(cs: seq<Clause>): nat {
    if |cs| == 0 then 0 else Arity(cs[0]) + Placeholders(cs[1..])
  }

  /** The position of a clause in the handler's fixed emission order. */
  function Rank(c: Clause): nat {
    match c
    case OwnerIs => 0
    case DateBetween => 1
    case KindIs => 2
    case CategoryNamed => 3
  }

  /** Clauses appear in the handler's fixed emission order. */
  ghost predicate RankOrdered(cs: seq<Clause>) {
    forall i, j :: 0 <= i < j < |cs| ==> Rank(cs[i]) < Rank(cs[j])
  }

  /** One optional step of the builder: when `cond` holds, append clause `c`
      with its parameters `ps`. */
  function AddIf(s: Sql, cond: bool, c: Clause, ps: seq<Param>): (r: Sql)
    requires |ps| == Arity(c)
    requires Placeholders(s.clauses) == |s.params|
    ensures Placeholders(r.clauses) == |r.params|
  {
    if cond then
      PlaceholdersAppend(s.clauses, [c]);
      Sql(s.clauses + [c], s.params + ps)
    else s
  }

  /** A row matches the extended statement when it matches the original one
      and, if the clause was added, the clause. */
  lemma AddIfMatches(s: Sql, cond: bool, c: Clause, ps: seq<Param>, row: JoinedTx)
    requires |ps| == Arity(c)
    requires Placeholders(s.clauses) == |s.params|
    ensures var r := AddIf(s, cond, c, ps);
            Matches(r.clauses, r.params, row) == (Matches(s.clauses, s.params, row) && (cond ==> Holds(c, ps, row)))
  {
    if cond {
      MatchesAppend(s.clauses, s.params, [c], ps, row);
    }
  }

  function Base(userId: int): Sql {
    Sql([OwnerIs], [PInt(userId)])
  }

  /** The two dates the range clause binds. When the range is inactive the
      clause is not added and these placeholder values are never bound;
      they only keep the function total. */
  function DateParams(q: ListQuery): seq<Param> {
    if DatesActive(q) then [PDay(q.fromDate.value), PDay(q.toDate.value)] else [PDay(0), PDay(0)]
  }

  function WithDates(userId: int, q: ListQuery): (r: Sql)
    ensures Placeholders(r.clauses) == |r.params|
  {
    AddIf(Base(userId), DatesActive(q), DateBetween, DateParams(q))
  }

  function WithKind(userId: int, q: ListQuery): (r: Sql)
    ensures Placeholders(r.clauses) == |r.params|
  {
    AddIf(WithDates(userId, q), KindActive(q), KindIs, [PText(q.kind.GetOr(""))])
  }

  /** The statement the handler builds for an owner and a query: the owner
      clause, then the date, kind and category clauses each under its own
      condition; every placeholder has its parameter. */
  function BuildListSql(userId: int, q: ListQuery): (s: Sql)
    ensures |s.clauses| >= 1 && s.clauses[0] == OwnerIs
    ensures |s.params| >= 1 && s.params[0] == PInt(userId)
    ensures Placeholders(s.clauses) == |s.params|
  {
    AddIf(WithKind(userId, q), CategoryActive(q), CategoryNamed, [PText(q.category.GetOr(""))])
  }

  /** The optional clauses of a built statement, as the handler emits them. */
  function OptionalClauses(q: ListQuery): seq<Clause> {
    (if DatesActive(q) then [DateBetween] else []) +
    (if KindActive(q) then [KindIs] else []) +
    (if CategoryActive(q) then [CategoryNamed] else [])
  }

  lemma BuiltClauseList(userId: int, q: ListQuery)
    ensures BuildListSql(userId, q).clauses == [OwnerIs] + OptionalClauses(q)
  {
  }

  lemma OptionalClausesShape(q: ListQuery)
    ensures var cs := [OwnerIs] + OptionalClauses(q);
            && (DateBetween in cs <==> DatesActive(q))
            && (KindIs in cs <==> KindActive(q))
            && (CategoryNamed in cs <==> CategoryActive(q))
            && RankOrdered(cs)
  {
  }

  lemma BuiltDateParams(userId: int, q: ListQuery)
    requires DatesActive(q)
    ensures var s := BuildListSql(userId, q);
            |s.params| >= 3 && s.params[1..3] == [PDay(q.fromDate.value), PDay(q.toDate.value)]
  {
    var s := BuildListSql(userId, q);
    var d := WithDates(userId, q);
    var k := WithKind(userId, q);
    assert d.params == [PInt(userId), PDay(q.fromDate.value), PDay(q.toDate.value)];
    assert k.params[..3] == d.params;
    assert s.params[..3] == k.params[..3];
  }

  /** Each optional clause is present exactly under its condition, the
      clauses keep the order owner, date, kind, category, and the date clause
      binds the two ends of the range in order right after the owner. */
  lemma BuiltSqlClauses(userId: int, q: ListQuery)
    ensures var s := BuildListSql(userId, q);
            && (DateBetween in s.clauses <==> DatesActive(q))
            && (KindIs in s.clauses <==> KindActive(q))
            && (CategoryNamed in s.clauses <==> CategoryActive(q))
            && RankOrdered(s.clauses)
            && (DatesActive(q) ==> |s.params| >= 3 &&
                                   s.params[1..3] == [PDay(q.fromDate.value), PDay(q.toDate.value)])
  {
    BuiltClauseList(userId, q);
    OptionalClausesShape(q);
    if DatesActive(q) {
      BuiltDateParams(userId, q);
    }
  }

  lemma {:induction false} PlaceholdersAppend(a: seq<Clause>, b: seq<Clause>)
    ensures Placeholders(a + b) == Placeholders(a) + Placeholders(b)
  {
    if |a| > 0 {
      PlaceholdersAppend(a[1..], b);
      assert (a + b)[1..] == a[1..] + b;
    } else {
      assert a + b == b;
    }
  }

  /** Whether a row satisfies a clause whose parameters start at `ps[0]`; a
      parameter that is missing binds NULL, which no comparison accepts. */
  predicate Holds(c: Clause, ps: seq<Param>, row: JoinedTx) {
    match c
    case OwnerIs => |ps| >= 1 && ps[0] == PInt(row.tx.usuarioId)
    case DateBetween => |ps| >= 2 && ps[0].PDay? && ps[1].PDay? && ps[0].d <= row.tx.fecha <= ps[1].d
    case KindIs => |ps| >= 1 && ps[0] == PText(row.tx.tipo)
    case CategoryNamed => |ps| >= 1 && ps[0].PText? && row.categoriaNombre == Some(ps[0].s)
  }

  /** The WHERE conjunction, binding parameters left to right. */
  predicate Matches(cs: seq<Clause>, ps: seq<Param>, row: JoinedTx) {
    if |cs| == 0 then true
    else
      var n := if Arity(cs[0]) <= |ps| then Arity(cs[0]) else |ps|;
      Holds(cs[0], ps, row) && Matches(cs[1..], ps[n..], row)
  }

  lemma {:induction false} MatchesAppend(a: seq<Clause>, pa: seq<Param>, b: seq<Clause>, pb: seq<Param>,
                                         row: JoinedTx)
    requires Placeholders(a) == |pa|
    ensures Matches(a + b, pa + pb, row) == (Matches(a, pa, row) && Matches(b, pb, row))
  {
    if |a| == 0 {
      assert a + b == b;
      assert pa + pb == pb;
    } else {
      var n := Arity(a[0]);
      assert (a + b)[1..] == a[1..] + b;
      assert (pa + pb)[n..] == pa[n..] + pb;
      assert Holds(a[0], pa + pb, row) == Holds(a[0], pa, row);
      MatchesAppend(a[1..], pa[n..], b, pb, row);
    }
  }

  /** The intended meaning of a listing: the owner's rows, within the date
      range (both ends included) when both ends are given, of the kind when
      one other than `Todos` is given, in the named category when one other
      than `Todas` is given. */
  predicate Wanted(userId: int, q: ListQuery, row: JoinedTx) {
    && row.tx.usuarioId == userId
    && (DatesActive(q) ==> q.fromDate.value <= row.tx.fecha <= q.toDate.value)
    && (KindActive(q) ==> row.tx.tipo == q.kind.value)
    && (CategoryActive(q) ==> row.categoriaNombre == Some(q.category.value))
  }

  /** The built statement selects exactly the wanted rows. */
  lemma BuiltSqlSelectsWanted(userId: int, q: ListQuery, row: JoinedTx)
    ensures var s := BuildListSql(userId, q);
            Matches(s.clauses, s.params, row) <==> Wanted(userId, q, row)
  {
    var b := Base(userId);
    assert Matches(b.clauses, b.params, row) <==> row.tx.usuarioId == userId;
    var d := WithDates(userId, q);
    AddIfMatches(b, DatesActive(q), DateBetween, DateParams(q), row);
    assert Matches(d.clauses, d.params, row) <==>
           row.tx.usuarioId == userId && (DatesActive(q) ==> q.fromDate.value <= row.tx.fecha <= q.toDate.value);
    var k := WithKind(userId, q);
    AddIfMatches(d, KindActive(q), KindIs, [PText(q.kind.GetOr(""))], row);
    assert Matches(k.clauses, k.params, row) <==>
           Matches(d.clauses, d.params, row) && (KindActive(q) ==> row.tx.tipo == q.kind.value);
    var r := AddIf(k, CategoryActive(q), CategoryNamed, [PText(q.category.GetOr(""))]);
    AddIfMatches(k, CategoryActive(q), CategoryNamed, [PText(q.category.GetOr(""))], row);
    assert Matches(r.clauses, r.params, row) <==>
           Matches(k.clauses, k.params, row) && (CategoryActive(q) ==> row.categoriaNombre == Some(q.category.value));
    assert BuildListSql(userId, q) == r;
  }

  function MatchesFn(s: Sql): JoinedTx -> bool {
    (row: JoinedTx) => Matches(s.clauses, s.params, row)
  }

  function Fecha(row: JoinedTx): int {
    row.tx.fecha
  }

  /** Running a statement: more parameters than placeholders is a range
      error; otherwise the matching joined rows, ordered by date descending. */
  function Execute(s: Sql, db: Db): (r: Result<seq<JoinedTx>, SqlError>)
    ensures r.Err? <==> |s.params| > Placeholders(s.clauses)
    ensures r.Ok? ==> SortedDesc(Fecha, r.value)
    ensures r.Ok? ==> multiset(r.value) == multiset(Filter(MatchesFn(s), JoinAll(db)))
  {
    if |s.params| > Placeholders(s.clauses) then Err(ParameterOutOfRange)
    else Ok(SortDesc(Fecha, Filter(MatchesFn(s), JoinAll(db))))
  }

  const MsgUserRequired := "Se requiere el ID del usuario"
  const MsgListFailed := "Error al obtener transacciones"
  const MsgFieldsRequired := "Todos los campos son requeridos"
  const MsgCreateFailed := "Error al crear transacción"

  /** `GET /api/transactions`. `fault` stands for a database that could not
      be opened, which the handler meets before anything else. */
  function ListTransactions(db: Db, q: ListQuery, fault: bool): (r: Response<seq<JoinedTx>>)
    ensures fault ==> r == Failure(500, MsgListFailed)
    ensures !fault && q.userId.None? ==> r == Failure(400, MsgUserRequired)
    ensures !fault && q.userId.Some? ==> r.Json? && r.status == 200
  {
    if fault then Failure(500, MsgListFailed)
    else if q.userId.None? then Failure(400, MsgUserRequired)
    else
      match Execute(BuildListSql(q.userId.value, q), db)
      case Ok(rows) => Json(200, rows)
      case Err(_) => Failure(500, MsgListFailed)
  }

  /** A successful listing holds exactly the wanted rows, each once per
      stored row, all of the owner, newest first. */
  lemma ListingIsWanted(db: Db, q: ListQuery)
    requires q.userId.Some?
    ensures var r := ListTransactions(db, q, false);
            && r.Json?
            && SortedDesc(Fecha, r.body)
            && (forall row :: row in r.body <==> row in JoinAll(db) && Wanted(q.userId.value, q, row))
            && (forall row :: row in r.body ==> row.tx.usuarioId == q.userId.value)
            && multiset(r.body) == multiset(Filter((row: JoinedTx) => Wanted(q.userId.value, q, row), JoinAll(db)))
  {
    var s := BuildListSql(q.userId.value, q);
    var wanted := (row: JoinedTx) => Wanted(q.userId.value, q, row);
    forall row
      ensures MatchesFn(s)(row) == wanted(row)
    {
      BuiltSqlSelectsWanted(q.userId.value, q, row);
    }
    FilterSameOn(MatchesFn(s), wanted, JoinAll(db));
    var rows := Filter(MatchesFn(s), JoinAll(db));
    SortKeepsMembers(Fecha, rows);
  }

  // ---------------------------------------------------------------------
  // POST

  /** The JSON body: `descripcion, monto, fecha, tipo, categoria_id, usuario_id`. */
  datatype TxBody = TxBody(
    descripcion: Option<string>,
    monto: Option<int>,
    fecha: Option<Day>,
    tipo: Option<string>,
    categoriaId: Option<int>,
    usuarioId: Option<int>)

  /** All six fields truthy; a zero amount or id is falsy. */
  predicate Complete(b: TxBody) {
    && TruthyText(b.descripcion) && TruthyNumber(b.monto) && b.fecha.Some?
    && TruthyText(b.tipo) && TruthyNumber(b.categoriaId) && TruthyNumber(b.usuarioId)
  }

  /** `POST /api/transactions`: 400 on an incomplete body before touching
      the store; otherwise insert, read the new row back with its category
      name and answer 201 with it. */
  function CreateTransaction(db: Db, b: TxBody, fault: bool): (r: (Response<Option<JoinedTx>>, Db))
    ensures fault ==> r == (Failure(500, MsgCreateFailed), db)
    ensures !fault && !Complete(b) ==> r == (Failure(400, MsgFieldsRequired), db)
    ensures !fault && Complete(b) ==>
              && r.0.Json? && r.0.status == 201
              && r.1 == InsertTransaction(db, b.descripcion.value, b.monto.value, b.fecha.value, b.tipo.value,
                                          b.categoriaId.value, b.usuarioId.value).0
  {
    if fault then (Failure(500, MsgCreateFailed), db)
    else if !Complete(b) then (Failure(400, MsgFieldsRequired), db)
    else
      var (db', id) := InsertTransaction(db, b.descripcion.value, b.monto.value, b.fecha.value, b.tipo.value,
                                         b.categoriaId.value, b.usuarioId.value);
      match TxById(db', id)
      case Some(row) => (Json(201, Some(Join(db', row))), db')
      case None => (Json(201, None), db')
  }

  /** On a valid store a successful create answers with the new row: a
      fresh id, every field equal to the body's, and the store stays valid. */
  lemma CreateReturnsInsertedRow(db: Db, b: TxBody)
    requires Valid(db) && Complete(b)
    ensures var (resp, db') := CreateTransaction(db, b, false);
            && Valid(db')
            && resp == Json(201, Some(Join(db', TxRow(db.nextTxId, b.descripcion.value, b.monto.value,
                                                      b.fecha.value, b.tipo.value, b.categoriaId.value,
                                                      b.usuarioId.value))))
            && (forall i :: 0 <= i < |db.transactions| ==> db.transactions[i].id != db.nextTxId)
  {
    InsertTransactionReadBack(db, b.descripcion.value, b.monto.value, b.fecha.value, b.tipo.value,
                              b.categoriaId.value, b.usuarioId.value);
  }

  /** A zero amount is refused like a missing one. */
  lemma ZeroAmountRejected(db: Db, b: TxBody)
    requires b.monto == Some(0)
    ensures CreateTransaction(db, b, false) == (Failure(400, MsgFieldsRequired), db)
  {
  }
}
