/** `GET /api/usuarios` (every user) and `POST /api/usuarios` (an insert with
    no validation of its own, left to the table's constraints). */
module UsuariosRoute {
  import opened Wrappers
  import opened Store
  import opened Http

  const MsgListFailed := "Error al obtener usuarios"
  const MsgCreated := "Usuario creado exitosamente"
  const MsgCreateFailed := "Error al crear usuario"

  /** `GET /api/usuarios`: all stored users, unfiltered. */
  function ListUsers(db: Db, fault: bool): (r: Response<seq<UserRow>>)
    ensures fault ==> r == Failure(500, MsgListFailed)
    ensures !fault ==> r == Json(200, db.users)
  {
    if fault then Failure(500, MsgListFailed) else Json(200, db.users)
  }

  /** The JSON body: `firebase_uid, nombre, correo_electronico, rol`. */
  datatype UserBody = UserBody(firebaseUid: Option<string>, nombre: Option<string>, correo: Option<string>,
                               rol: Option<string>)

  /** `POST /api/usuarios`: the body goes straight to the insert; a refused
      insert (NULL in a required column, a taken uid or e-mail) is a 500
      with the store unchanged; success answers only a message. */
  function CreateUser(db: Db, b: UserBody, fault: bool): (r: (Response<string>, Db))
    ensures fault ==> r == (Failure(500, MsgCreateFailed), db)
    ensures !fault && (b.firebaseUid.None? || b.nombre.None? || b.correo.None?) ==>
              r == (Failure(500, MsgCreateFailed), db)
    ensures !fault && b.firebaseUid.Some? && (UidTaken(db, b.firebaseUid.value)) ==>
              r == (Failure(500, MsgCreateFailed), db)
    ensures !fault && b.correo.Some? && (EmailTaken(db, b.correo.value)) ==>
              r == (Failure(500, MsgCreateFailed), db)
    ensures !fault ==> (r.0.Json? <==> InsertUser(db, b.firebaseUid, b.nombre, b.correo, b.rol).Ok?)
    ensures r.0.Json? ==> r.1 == InsertUser(db, b.firebaseUid, b.nombre, b.correo, b.rol).value
    ensures r.0.Failure? ==> r.1 == db
    ensures r.0.Json? ==> r.0 == Json(200, MsgCreated) && |r.1.users| == |db.users| + 1 &&
                          r.1.users[|db.users|] == UserRow(db.nextUserId, b.firebaseUid.value, b.nombre.value,
                                                           b.correo.value, b.rol)
  {
    if fault then (Failure(500, MsgCreateFailed), db)
    else
      match InsertUser(db, b.firebaseUid, b.nombre, b.correo, b.rol)
      case Ok(db') => (Json(200, MsgCreated), db')
      case Err(_) => (Failure(500, MsgCreateFailed), db)
  }

  /** The store after a sequence of user POSTs, each seeing the result of
      the previous ones. */
  function CreateAll(db: Db, bodies: seq<UserBody>, faults: seq<bool>): Db
    requires |faults| == |bodies|
    decreases |bodies|
  {
    if |bodies| == 0 then db
    else CreateAll(CreateUser(db, bodies[0], faults[0]).1, bodies[1..], faults[1..])
  }

  /** One POST keeps the store valid. */
  lemma CreateUserKeepsValid(db: Db, b: UserBody, fault: bool)
    requires Valid(db)
    ensures Valid(CreateUser(db, b, fault).1)
  {
    if !fault && InsertUser(db, b.firebaseUid, b.nombre, b.correo, b.rol).Ok? {
      InsertUserKeepsValid(db, b.firebaseUid, b.nombre, b.correo, b.rol);
    }
  }

  /** Whatever the bodies, `firebase_uid` and e-mail stay unique: the store
      is valid after any sequence of POSTs from a valid store. */
  lemma {:induction false} CreateAllKeepsValid(db: Db, bodies: seq<UserBody>, faults: seq<bool>)
    requires Valid(db) && |faults| == |bodies|
    ensures Valid(CreateAll(db, bodies, faults))
    decreases |bodies|
  {
    if |bodies| > 0 {
      CreateUserKeepsValid(db, bodies[0], faults[0]);
      CreateAllKeepsValid(CreateUser(db, bodies[0], faults[0]).1, bodies[1..], faults[1..]);
    }
  }

  /** A user registered through POST can be found again by its uid. */
  lemma CreatedUserIsFound(db: Db, b: UserBody)
    requires Valid(db)
    requires CreateUser(db, b, false).0.Json?
    ensures var db' := CreateUser(db, b, false).1;
            UserByUid(db', b.firebaseUid.value) ==
              Some(UserRow(db.nextUserId, b.firebaseUid.value, b.nombre.value, b.correo.value, b.rol))
  {
    var db' := CreateUser(db, b, false).1;
    CreateUserKeepsValid(db, b, false);
    UidIdentifiesUser(db', b.firebaseUid.value, db'.users[|db.users|]);
  }
}
