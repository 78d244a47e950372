/** `POST /api/auth/login`: look a pre-registered user up by its external
    identity (`firebase_uid`). The handler only reads the store, which is
    why it returns no new store. */
module LoginRoute {
  import opened Wrappers
  import opened Store
  import opened Http

  const MsgUidRequired := "Firebase UID es requerido"
  const MsgNotFound := "Usuario no encontrado"
  const MsgSuccess := "Autenticación exitosa"
  const MsgFailed := "Error en la autenticación"

  /** The columns the lookup selects: `id, nombre, correo_electronico, rol`. */
  datatype LoginUser = LoginUser(id: int, nombre: string, correo: string, rol: Option<string>)

  datatype LoginReply = LoginReply(message: string, user: LoginUser)

  /** 400 without a uid, before any lookup; 404 for an unknown uid; else the
      user's public columns. */
  function Login(db: Db, uid: Option<string>, fault: bool): (r: Response<LoginReply>)
    ensures fault ==> r == Failure(500, MsgFailed)
    ensures !fault && !TruthyText(uid) ==> r == Failure(400, MsgUidRequired)
    ensures !fault && TruthyText(uid) ==> (r == Failure(404, MsgNotFound) <==> !UidTaken(db, uid.value))
    ensures !fault && TruthyText(uid) && UidTaken(db, uid.value) ==> r.Json?
    ensures r.Json? ==> && r.status == 200 && r.body.message == MsgSuccess
                        && exists u :: u in db.users && u.firebaseUid == uid.value &&
                                       r.body.user == LoginUser(u.id, u.nombre, u.correo, u.rol)
  {
    if fault then Failure(500, MsgFailed)
    else if !TruthyText(uid) then Failure(400, MsgUidRequired)
    else
      match UserByUid(db, uid.value)
      case None => Failure(404, MsgNotFound)
      case Some(u) => Json(200, LoginReply(MsgSuccess, LoginUser(u.id, u.nombre, u.correo, u.rol)))
  }

  /** In a valid store, logging in with a registered uid answers that very
      user (the uid is unique). */
  lemma LoginFindsTheUser(db: Db, u: UserRow)
    requires Valid(db)
    requires u in db.users && u.firebaseUid != ""
    ensures Login(db, Some(u.firebaseUid), false) ==
            Json(200, LoginReply(MsgSuccess, LoginUser(u.id, u.nombre, u.correo, u.rol)))
  {
    UidIdentifiesUser(db, u.firebaseUid, u);
  }
}
