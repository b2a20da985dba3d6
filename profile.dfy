/**
 * The profile page: it loads the signed-in user's data and favourites, lets the
 * user edit three fields and save them, and colours the role badge by role.
 */
module Profile {
  import opened Wrappers
  import opened Text
  import opened Catalog

  /**
   * The token the page uses: the session token, else the stored "access_token",
   * else the stored "token", each only when non-empty.
   */
  function ResolveToken(token: Option<string>, storage: Storage): (r: Option<string>)
    ensures r.Some? ==> r.value != ""
    ensures Truthy(token) ==> r == token
    ensures !Truthy(token) && Truthy(GetItem(storage, "access_token")) ==> r == Some(storage["access_token"])
    ensures !Truthy(token) && !Truthy(GetItem(storage, "access_token")) ==>
              r == (if Truthy(GetItem(storage, "token")) then Some(storage["token"]) else None)
  {
    if Truthy(token) then token
    else if Truthy(GetItem(storage, "access_token")) then GetItem(storage, "access_token")
    else if Truthy(GetItem(storage, "token")) then GetItem(storage, "token")
    else None
  }

  /** A token is used whenever one of the three places holds a non-empty one. */
  lemma TokenFoundIff(token: Option<string>, storage: Storage)
    ensures ResolveToken(token, storage).Some? <==>
              Truthy(token) || Truthy(GetItem(storage, "access_token")) || Truthy(GetItem(storage, "token"))
  {
  }

  /** The edit form. */
  datatype Form = Form(nombreusuario: string, telefono: string, email: string,
                       codigoestudiantil: string, rol: string)

  /** The form before anything is loaded. */
  const EmptyForm := Form("", "", "", "", "normal")

  /** The body of `GET /usuarios/me`; any key may be missing or `null`. */
  datatype UserData = UserData(nombreusuario: Option<string>, telefono: Option<string>,
                               email: Option<string>, codigoestudiantil: Option<string>,
                               rol: Option<string>)

  /** The form filled from a loaded body (`data?.key ?? ""`, and `?? "normal"` for the role). */
  function FormFrom(data: Option<UserData>): (f: Form)
    ensures data.None? ==> f == EmptyForm
    ensures data.Some? ==> f.nombreusuario == data.value.nombreusuario.GetOr("")
    ensures data.Some? ==> f.telefono == data.value.telefono.GetOr("")
    ensures data.Some? ==> f.email == data.value.email.GetOr("")
    ensures data.Some? ==> f.codigoestudiantil == data.value.codigoestudiantil.GetOr("")
    ensures data.Some? ==> f.rol == data.value.rol.GetOr("normal")
  {
    match data
    case None => EmptyForm
    case Some(d) =>
      Form(d.nombreusuario.GetOr(""), d.telefono.GetOr(""), d.email.GetOr(""),
           d.codigoestudiantil.GetOr(""), d.rol.GetOr("normal"))
  }

  /** A body with every key present loads exactly those values; only missing keys default. */
  lemma FormFromFullData(f: Form)
    ensures FormFrom(Some(UserData(Some(f.nombreusuario), Some(f.telefono), Some(f.email),
                                   Some(f.codigoestudiantil), Some(f.rol)))) == f
  {
  }

  /** The body of `PUT /usuarios/me`: each key present or absent. */
  datatype Payload = Payload(nombreusuario: Option<string>, telefono: Option<string>,
                             codigoestudiantil: Option<string>)

  /** The payload `handleGuardar` builds from the form. */
  function SavePayload(f: Form): (p: Payload)
    ensures p.nombreusuario.Some? <==> f.nombreusuario != ""
    ensures p.nombreusuario.Some? ==> p.nombreusuario.value == f.nombreusuario
    ensures p.telefono == Some(f.telefono)
    ensures p.codigoestudiantil == Some(f.codigoestudiantil)
  {
    Payload(if f.nombreusuario != "" then Some(f.nombreusuario) else None,
            Some(f.telefono), Some(f.codigoestudiantil))
  }

  /** Reading the payload as a partial update of a stored profile: present keys replace. */
  function ApplyPayload(stored: Form, p: Payload): Form {
    stored.(nombreusuario := p.nombreusuario.GetOr(stored.nombreusuario),
            telefono := p.telefono.GetOr(stored.telefono),
            codigoestudiantil := p.codigoestudiantil.GetOr(stored.codigoestudiantil))
  }

  /**
   * Saving the form onto any stored profile keeps the stored e-mail and role,
   * keeps the stored name when the form's is blank, and takes everything else
   * from the form; saving twice is saving once.
   */
  lemma SaveEffect(stored: Form, f: Form)
    ensures var s := ApplyPayload(stored, SavePayload(f));
            && s.email == stored.email && s.rol == stored.rol
            && s.nombreusuario == (if f.nombreusuario == "" then stored.nombreusuario else f.nombreusuario)
            && s.telefono == f.telefono && s.codigoestudiantil == f.codigoestudiantil
    ensures ApplyPayload(ApplyPayload(stored, SavePayload(f)), SavePayload(f)) == ApplyPayload(stored, SavePayload(f))
  {
  }

  /** The role badge's classes and accent colour. */
  datatype RolColor = RolColor(color: string, bg: string, accent: string)

  const Purple := RolColor("text-purple-700", "bg-purple-100", "#7e22ce")
  const Orange := RolColor("text-orange-700", "bg-orange-100", "#ea580c")
  const Blue := RolColor("text-blue-700", "bg-blue-100", "#1e40af")

  /** `getColorByRol`: teachers purple, administrators orange, everyone else blue. */
  function ColorByRol(rol: string): (r: RolColor)
    ensures r == Purple <==> ToLower(rol) == "docente"
    ensures r == Orange <==> ToLower(rol) == "admin"
    ensures r == Blue <==> ToLower(rol) != "docente" && ToLower(rol) != "admin"
  {
    var key := ToLower(rol);
    if key == "docente" then Purple else if key == "admin" then Orange else Blue
  }

  /** The colour does not depend on letter case. */
  lemma ColorCaseInsensitive(rol: string)
    ensures ColorByRol(ToLower(rol)) == ColorByRol(rol)
  {
    ToLowerIdempotent(rol);
  }

  /** The three fields the edit form has inputs for. */
  datatype Field = NombreUsuario | Telefono | CodigoEstudiantil

  /** The outcome of `handleGuardar`, as shown in its alert. */
  datatype SaveNotice = NoToken | Saved | SaveFailed

  /** The page's state. */
  class ProfilePage {
    var form: Form
    var favoritos: seq<Resource>
    var loading: bool
    var editando: bool

    constructor()
      ensures form == EmptyForm && favoritos == [] && loading && !editando
    {
      form := EmptyForm;
      favoritos := [];
      loading := true;
      editando := false;
    }

    /**
     * The profile effect: with a token, ask for the user's data and fill the form
     * from a successful answer; a failure only logs.
     */
    method LoadUsuario(token: Option<string>, storage: Storage, response: Outcome<Option<UserData>>)
      returns (asked: bool)
      modifies this
      ensures asked <==> ResolveToken(token, storage).Some?
      ensures form == if asked && response.Success? then FormFrom(response.value) else old(form)
      ensures favoritos == old(favoritos) && loading == old(loading) && editando == old(editando)
    {
      var tk := ResolveToken(token, storage);
      asked := tk.Some?;
      if asked && response.Success? {
        form := FormFrom(response.value);
      }
    }

    /**
     * The favourites effect: without a token the list is emptied; with one, a
     * successful answer gives the list (`[]` for `null`) and a failure empties it.
     * Loading ends either way.
     */
    method LoadFavoritos(token: Option<string>, storage: Storage, response: Outcome<Option<seq<Resource>>>)
      returns (asked: bool)
      modifies this
      ensures asked <==> ResolveToken(token, storage).Some?
      ensures favoritos == if asked && response.Success? then response.value.GetOr([]) else []
      ensures !loading
      ensures form == old(form) && editando == old(editando)
    {
      var tk := ResolveToken(token, storage);
      if tk.None? {
        loading := false;
        favoritos := [];
        asked := false;
        return;
      }
      asked := true;
      if response.Success? {
        favoritos := response.value.GetOr([]);
      } else {
        favoritos := [];
      }
      loading := false;
    }

    /** `handleChange` for one input. */
    method HandleChange(field: Field, value: string)
      modifies this
      ensures form == match field
                      case NombreUsuario => old(form).(nombreusuario := value)
                      case Telefono => old(form).(telefono := value)
                      case CodigoEstudiantil => old(form).(codigoestudiantil := value)
      ensures favoritos == old(favoritos) && loading == old(loading) && editando == old(editando)
    {
      match field {
        case NombreUsuario => form := form.(nombreusuario := value);
        case Telefono => form := form.(telefono := value);
        case CodigoEstudiantil => form := form.(codigoestudiantil := value);
      }
    }

    /**
     * `handleGuardar`: without a token nothing is sent; otherwise the payload built
     * from the form is sent, and a success closes the editor.
     */
    method Guardar(token: Option<string>, storage: Storage, response: Outcome<()>)
      returns (sent: Option<Payload>, notice: SaveNotice)
      modifies this
      ensures sent.Some? <==> ResolveToken(token, storage).Some?
      ensures sent.Some? ==> sent.value == SavePayload(form)
      ensures notice == if sent.None? then NoToken else if response.Success? then Saved else SaveFailed
      ensures editando == if notice == Saved then false else old(editando)
      ensures form == old(form) && favoritos == old(favoritos) && loading == old(loading)
    {
      var tk := ResolveToken(token, storage);
      if tk.None? {
        sent := None;
        notice := NoToken;
        return;
      }
      sent := Some(SavePayload(form));
      if response.Success? {
        notice := Saved;
        editando := false;
      } else {
        notice := SaveFailed;
      }
    }

    /** The edit button. */
    method ToggleEditando()
      modifies this
      ensures editando == !old(editando)
      ensures form == old(form) && favoritos == old(favoritos) && loading == old(loading)
    {
      editando := !editando;
    }
  }
}
