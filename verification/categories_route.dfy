/** `GET /api/categories` (the owner's categories) and
    `POST /api/categories` (validated insert and read-back). */
module CategoriesRoute {
  import opened Wrappers
  import opened Seqs
  import opened Store
  import opened Http

  const MsgUserRequired := "Se requiere el ID del usuario"
  const MsgListFailed := "Error al obtener categorías"
  const MsgFieldsRequired := "Se requieren nombre, tipo y usuario_id"
  const MsgCreateFailed := "Error al crear categoría"

  function OwnedByFn(userId: int): CategoryRow -> bool {
    (c: CategoryRow) => c.usuarioId == userId
  }

  /** `GET /api/categories?userId=`: 400 without an owner; otherwise exactly
      the owner's rows in store order, possibly none. `fault` stands for a
      database that could not be opened. */
  function ListCategories(db: Db, userId: Option<int>, fault: bool): (r: Response<seq<CategoryRow>>)
    ensures fault ==> r == Failure(500, MsgListFailed)
    ensures !fault && userId.None? ==> r == Failure(400, MsgUserRequired)
    ensures !fault && userId.Some? ==>
              && r.Json? && r.status == 200
              && IsSubsequence(r.body, db.categories)
              && KeptExactly(r.body, db.categories, OwnedByFn(userId.value))
              && (forall c :: c in r.body <==> c in db.categories && c.usuarioId == userId.value)
  {
    if fault then Failure(500, MsgListFailed)
    else if userId.None? then Failure(400, MsgUserRequired)
    else
      FilterIsSubsequence(OwnedByFn(userId.value), db.categories);
      FilterKeptExactly(OwnedByFn(userId.value), db.categories);
      Json(200, Filter(OwnedByFn(userId.value), db.categories))
  }

  /** An owner without categories gets an empty list, not an error. */
  lemma NoCategoriesIsEmptyList(db: Db, userId: int)
    requires forall i :: 0 <= i < |db.categories| ==> db.categories[i].usuarioId != userId
    ensures ListCategories(db, Some(userId), false) == Json(200, [])
  {
    FilterNoneKept(OwnedByFn(userId), db.categories);
  }

  /** The JSON body: `nombre, tipo, usuario_id`. */
  datatype CategoryBody = CategoryBody(nombre: Option<string>, tipo: Option<string>, usuarioId: Option<int>)

  predicate Complete(b: CategoryBody) {
    TruthyText(b.nombre) && TruthyText(b.tipo) && TruthyNumber(b.usuarioId)
  }

  /** `POST /api/categories`: 400 on an incomplete body before touching the
      store; otherwise insert (any non-empty `tipo` is accepted), read the
      new row back and answer 201 with it. */
  function CreateCategory(db: Db, b: CategoryBody, fault: bool): (r: (Response<Option<CategoryRow>>, Db))
    ensures fault ==> r == (Failure(500, MsgCreateFailed), db)
    ensures !fault && !Complete(b) ==> r == (Failure(400, MsgFieldsRequired), db)
    ensures !fault && Complete(b) ==>
              && r.0.Json? && r.0.status == 201
              && r.1 == InsertCategory(db, b.nombre.value, b.tipo.value, b.usuarioId.value).0
  {
    if fault then (Failure(500, MsgCreateFailed), db)
    else if !Complete(b) then (Failure(400, MsgFieldsRequired), db)
    else
      var (db', id) := InsertCategory(db, b.nombre.value, b.tipo.value, b.usuarioId.value);
      (Json(201, CategoryById(db', id)), db')
  }

  /** On a valid store a successful create answers with the new row: a
      fresh id and the body's fields, whatever the `tipo` text; the store
      stays valid. */
  lemma CreateReturnsInsertedRow(db: Db, b: CategoryBody)
    requires Valid(db) && Complete(b)
    ensures var (resp, db') := CreateCategory(db, b, false);
            && Valid(db')
            && resp == Json(201, Some(CategoryRow(db.nextCategoryId, b.nombre.value, b.tipo.value, b.usuarioId.value)))
            && (forall i :: 0 <= i < |db.categories| ==> db.categories[i].id != db.nextCategoryId)
  {
    InsertCategoryReadBack(db, b.nombre.value, b.tipo.value, b.usuarioId.value);
  }

  /** A created category is listed for its owner afterwards. */
  lemma CreatedIsListed(db: Db, b: CategoryBody)
    requires Valid(db) && Complete(b)
    ensures var (resp, db') := CreateCategory(db, b, false);
            && resp.Json? && resp.body.Some?
            && resp.body.value in ListCategories(db', b.usuarioId, false).body
  {
    CreateReturnsInsertedRow(db, b);
  }
}
