/** The relational store behind the API routes, as three tables of rows
    plus the next AUTOINCREMENT id of each, with the schema's NOT NULL and
    UNIQUE constraints (src/lib/db.ts). Foreign keys are declared by the
    schema but SQLite does not enforce them unless asked to, so inserts here
    never check them. */
module Store {
  import opened Wrappers
  import opened Seqs
  import Records

  type Day = Records.Day

  /** A `usuarios` row; `rol` may be NULL. */
  datatype UserRow = UserRow(id: int, firebaseUid: string, nombre: string, correo: string, rol: Option<string>)

  /** A `categorias` row; `tipo` is free text at this level. */
  datatype CategoryRow = CategoryRow(id: int, nombre: string, tipo: string, usuarioId: int)

  /** A `transacciones` row. */
  datatype TxRow = TxRow(id: int, descripcion: string, monto: int, fecha: Day, tipo: string,
                         categoriaId: int, usuarioId: int)

  datatype Db = Db(
    users: seq<UserRow>,
    categories: seq<CategoryRow>,
    transactions: seq<TxRow>,
    nextUserId: int,
    nextCategoryId: int,
    nextTxId: int)

  /** Why a statement failed. */
  datatype SqlError = NotNullViolated(column: string) | UniqueViolated(column: string) | ParameterOutOfRange

  /** The store's invariant: ids are positive, below the next id and
      distinct; `firebase_uid` and `correo_electronico` are each unique. */
  ghost predicate Valid(db: Db) {
    && db.nextUserId >= 1 && db.nextCategoryId >= 1 && db.nextTxId >= 1
    && (forall i :: 0 <= i < |db.users| ==> 1 <= db.users[i].id < db.nextUserId)
    && (forall i :: 0 <= i < |db.categories| ==> 1 <= db.categories[i].id < db.nextCategoryId)
    && (forall i :: 0 <= i < |db.transactions| ==> 1 <= db.transactions[i].id < db.nextTxId)
    && (forall i, j :: 0 <= i < j < |db.users| ==>
          && db.users[i].id != db.users[j].id
          && db.users[i].firebaseUid != db.users[j].firebaseUid
          && db.users[i].correo != db.users[j].correo)
    && (forall i, j :: 0 <= i < j < |db.categories| ==> db.categories[i].id != db.categories[j].id)
    && (forall i, j :: 0 <= i < j < |db.transactions| ==> db.transactions[i].id != db.transactions[j].id)
  }

  /** A freshly created store. */
  const Empty: Db := Db([], [], [], 1, 1, 1)

  lemma EmptyIsValid()
    ensures Valid(Empty)
  {
  }

  predicate UidTaken(db: Db, uid: string) {
    exists i :: 0 <= i < |db.users| && db.users[i].firebaseUid == uid
  }

  predicate EmailTaken(db: Db, correo: string) {
    exists i :: 0 <= i < |db.users| && db.users[i].correo == correo
  }

  /** `INSERT INTO usuarios (firebase_uid, nombre, correo_electronico, rol)`.
      A missing value binds NULL; NULL is refused by the three NOT NULL
      columns and stored as is for `rol` (its default only applies when the
      column is left out of the statement). */
  function InsertUser(db: Db, uid: Option<string>, nombre: Option<string>, correo: Option<string>,
                      rol: Option<string>): (r: Result<Db, SqlError>)
    ensures r.Ok? <==> && uid.Some? && nombre.Some? && correo.Some?
                       && !UidTaken(db, uid.value) && !EmailTaken(db, correo.value)
    ensures r.Ok? ==> r.value == db.(users := db.users + [UserRow(db.nextUserId, uid.value, nombre.value,
                                                                 correo.value, rol)],
                                     nextUserId := db.nextUserId + 1)
  {
    if uid.None? then Err(NotNullViolated("firebase_uid"))
    else if nombre.None? then Err(NotNullViolated("nombre"))
    else if correo.None? then Err(NotNullViolated("correo_electronico"))
    else if UidTaken(db, uid.value) then Err(UniqueViolated("firebase_uid"))
    else if EmailTaken(db, correo.value) then Err(UniqueViolated("correo_electronico"))
    else
      Ok(db.(users := db.users + [UserRow(db.nextUserId, uid.value, nombre.value, correo.value, rol)],
             nextUserId := db.nextUserId + 1))
  }

  /** A successful user insert keeps the store valid. */
  lemma InsertUserKeepsValid(db: Db, uid: Option<string>, nombre: Option<string>, correo: Option<string>,
                             rol: Option<string>)
    requires Valid(db)
    requires InsertUser(db, uid, nombre, correo, rol).Ok?
    ensures Valid(InsertUser(db, uid, nombre, correo, rol).value)
  {
    var db' := InsertUser(db, uid, nombre, correo, rol).value;
    var n := |db.users|;
    forall i, j | 0 <= i < j < |db'.users|
      ensures db'.users[i].firebaseUid != db'.users[j].firebaseUid
      ensures db'.users[i].correo != db'.users[j].correo
    {
      if j == n {
        assert db'.users[i] == db.users[i];
      }
    }
  }

  /** `INSERT INTO categorias (nombre, tipo, usuario_id)`: the new row gets
      the next id. */
  function InsertCategory(db: Db, nombre: string, tipo: string, usuarioId: int): (r: (Db, int))
    ensures r.1 == db.nextCategoryId
    ensures r.0 == db.(categories := db.categories + [CategoryRow(r.1, nombre, tipo, usuarioId)],
                       nextCategoryId := db.nextCategoryId + 1)
  {
    var id := db.nextCategoryId;
    (db.(categories := db.categories + [CategoryRow(id, nombre, tipo, usuarioId)], nextCategoryId := id + 1), id)
  }

  /** `INSERT INTO transacciones (...)`: the new row gets the next id. */
  function InsertTransaction(db: Db, descripcion: string, monto: int, fecha: Day, tipo: string,
                             categoriaId: int, usuarioId: int): (r: (Db, int))
    ensures r.1 == db.nextTxId
    ensures r.0 == db.(transactions := db.transactions +
                                       [TxRow(r.1, descripcion, monto, fecha, tipo, categoriaId, usuarioId)],
                       nextTxId := db.nextTxId + 1)
  {
    var id := db.nextTxId;
    (db.(transactions := db.transactions + [TxRow(id, descripcion, monto, fecha, tipo, categoriaId, usuarioId)],
         nextTxId := id + 1), id)
  }

  function UidIsFn(uid: string): UserRow -> bool {
    (u: UserRow) => u.firebaseUid == uid
  }

  function CategoryIdIsFn(id: int): CategoryRow -> bool {
    (c: CategoryRow) => c.id == id
  }

  function TxIdIsFn(id: int): TxRow -> bool {
    (t: TxRow) => t.id == id
  }

  /** `... FROM usuarios WHERE firebase_uid = ?` as a single-row read. */
  function UserByUid(db: Db, uid: string): (r: Option<UserRow>)
    ensures r.None? <==> !UidTaken(db, uid)
    ensures r.Some? ==> r.value in db.users && r.value.firebaseUid == uid
  {
    FindFirst(UidIsFn(uid), db.users)
  }

  /** `... FROM categorias WHERE id = ?` as a single-row read. */
  function CategoryById(db: Db, id: int): (r: Option<CategoryRow>)
    ensures r.None? <==> forall i :: 0 <= i < |db.categories| ==> db.categories[i].id != id
    ensures r.Some? ==> r.value in db.categories && r.value.id == id
  {
    FindFirst(CategoryIdIsFn(id), db.categories)
  }

  /** `... FROM transacciones WHERE id = ?` as a single-row read. */
  function TxById(db: Db, id: int): (r: Option<TxRow>)
    ensures r.None? <==> forall i :: 0 <= i < |db.transactions| ==> db.transactions[i].id != id
    ensures r.Some? ==> r.value in db.transactions && r.value.id == id
  {
    FindFirst(TxIdIsFn(id), db.transactions)
  }

  /** In a valid store at most one user has a given `firebase_uid`, so the
      lookup finds that user. */
  lemma UidIdentifiesUser(db: Db, uid: string, u: UserRow)
    requires Valid(db)
    requires u in db.users && u.firebaseUid == uid
    ensures UserByUid(db, uid) == Some(u)
  {
    var v := UserByUid(db, uid).value;
    var i :| 0 <= i < |db.users| && db.users[i] == u;
    var j :| 0 <= j < |db.users| && db.users[j] == v;
    assert i == j;
  }

  /** A category insert keeps the store valid, and reading back by the
      returned id yields exactly the inserted row. */
  lemma InsertCategoryReadBack(db: Db, nombre: string, tipo: string, usuarioId: int)
    requires Valid(db)
    ensures var (db', id) := InsertCategory(db, nombre, tipo, usuarioId);
            && Valid(db')
            && (forall i :: 0 <= i < |db.categories| ==> db.categories[i].id != id)
            && CategoryById(db', id) == Some(CategoryRow(id, nombre, tipo, usuarioId))
  {
    var (db', id) := InsertCategory(db, nombre, tipo, usuarioId);
    var r := CategoryById(db', id).value;
    assert db'.categories[|db.categories|].id == id;
    var k :| 0 <= k < |db'.categories| && db'.categories[k] == r;
    assert k == |db.categories|;
  }

  /** A transaction insert keeps the store valid, and reading back by the
      returned id yields exactly the inserted row. */
  lemma InsertTransactionReadBack(db: Db, descripcion: string, monto: int, fecha: Day, tipo: string,
                                  categoriaId: int, usuarioId: int)
    requires Valid(db)
    ensures var (db', id) := InsertTransaction(db, descripcion, monto, fecha, tipo, categoriaId, usuarioId);
            && Valid(db')
            && (forall i :: 0 <= i < |db.transactions| ==> db.transactions[i].id != id)
            && TxById(db', id) == Some(TxRow(id, descripcion, monto, fecha, tipo, categoriaId, usuarioId))
  {
    var (db', id) := InsertTransaction(db, descripcion, monto, fecha, tipo, categoriaId, usuarioId);
    var r := TxById(db', id).value;
    assert db'.transactions[|db.transactions|].id == id;
    var k :| 0 <= k < |db'.transactions| && db'.transactions[k] == r;
    assert k == |db.transactions|;
  }
}
