/**
 * The resource manager page for teachers and administrators: it loads every
 * resource, filters them by a search box, orders them by title, and lets an
 * administrator or a resource's creator edit or delete it.
 */
module RecursoCrud {
  import opened Wrappers
  import opened Text
  import opened Catalog
  import opened Collation

  /** The signed-in user as the page reads it; either key may be missing. */
  datatype User = User(rol: Option<string>, idusuario: Option<int>)

  /** The role the page uses: the user's role when it is set and not empty. */
  function RolOf(user: Option<User>): (r: Option<string>)
    ensures r.Some? <==> user.Some? && Truthy(user.value.rol)
    ensures r.Some? ==> r.value != "" && r == user.value.rol
  {
    if user.Some? && Truthy(user.value.rol) then user.value.rol else None
  }

  /** The user id the page uses: the user's id when it is set and not zero. */
  function IdOf(user: Option<User>): (r: Option<int>)
    ensures r.Some? <==> user.Some? && user.value.idusuario.Some? && user.value.idusuario.value != 0
    ensures r.Some? ==> r == user.value.idusuario
  {
    if user.Some? && user.value.idusuario.Some? && user.value.idusuario.value != 0 then user.value.idusuario else None
  }

  /** Only administrators and teachers may open the manager. */
  predicate CanManage(rol: Option<string>) {
    rol == Some("admin") || rol == Some("docente")
  }

  /** The edit and delete buttons of a resource: for an administrator, or for its creator. */
  predicate CanEdit(rol: Option<string>, idusuario: Option<int>, r: Resource) {
    rol == Some("admin") || idusuario == r.idusuarioCreador
  }

  /** A teacher sees the buttons only on the resources whose creator has the teacher's id. */
  lemma TeacherEditsOwnOnly(idusuario: Option<int>, r: Resource)
    ensures CanEdit(Some("docente"), idusuario, r) <==> idusuario == r.idusuarioCreador
  {
  }

  /** An administrator sees the buttons on every resource. */
  lemma AdminEditsAll(idusuario: Option<int>, r: Resource)
    ensures CanEdit(Some("admin"), idusuario, r)
  {
  }

  /** The list after deleting `id`: every resource whose id is not `id`, in order. */
  function RemoveId(s: seq<Resource>, id: int): (r: seq<Resource>)
    ensures forall x :: x in r <==> x in s && x.idrecurso != Some(id)
    ensures |r| <= |s|
  {
    if s == [] then []
    else (if s[0].idrecurso != Some(id) then [s[0]] else []) + RemoveId(s[1..], id)
  }

  /** Deleting keeps every other resource as often as it occurs, and no copy of `id`. */
  lemma {:induction false} RemoveIdCounts(s: seq<Resource>, id: int)
    ensures forall x :: multiset(RemoveId(s, id))[x] == if x.idrecurso != Some(id) then multiset(s)[x] else 0
  {
    if s != [] {
      RemoveIdCounts(s[1..], id);
      assert s == [s[0]] + s[1..];
    }
  }

  /** Deleting keeps the order of the remaining resources. */
  lemma {:induction false} RemoveIdSubsequence(s: seq<Resource>, id: int)
    ensures IsSubsequence(RemoveId(s, id), s)
  {
    if s != [] {
      RemoveIdSubsequence(s[1..], id);
      var r := RemoveId(s, id);
      if s[0].idrecurso != Some(id) {
        assert r[0] == s[0] && r[1..] == RemoveId(s[1..], id);
      } else {
        assert r == RemoveId(s[1..], id);
      }
    }
  }

  /** Deleting an id no resource has changes nothing. */
  lemma {:induction false} RemoveAbsentId(s: seq<Resource>, id: int)
    requires forall k :: 0 <= k < |s| ==> s[k].idrecurso != Some(id)
    ensures RemoveId(s, id) == s
  {
    if s != [] {
      RemoveAbsentId(s[1..], id);
    }
  }

  /** The editor's path for a resource id. */
  function EditPath(id: int): string {
    "/admin/recursos/editar/" + IntToString(id)
  }

  /** Distinct resources open distinct editors. */
  lemma {:induction false} EditPathInjective(a: int, b: int)
    requires EditPath(a) == EditPath(b)
    ensures a == b
  {
    var pre := "/admin/recursos/editar/";
    assert EditPath(a)[|pre|..] == IntToString(a);
    assert EditPath(b)[|pre|..] == IntToString(b);
    IntToStringInjective(a, b);
  }

  /** `handleEdit(id)`: the editor's path, or none (an alert) without a usable id. */
  function EditTarget(id: Option<int>): (path: Option<string>)
    ensures path.Some? <==> id.Some? && id.value != 0
    ensures path.Some? ==> path.value == EditPath(id.value)
  {
    if id.Some? && id.value != 0 then Some(EditPath(id.value)) else None
  }

  /** What `handleDelete` tells the user. */
  datatype DeleteNotice = InvalidId | Cancelled | Deleted | DeleteFailed

  /** The error shown when loading fails. */
  const LoadError := "No se pudieron cargar los recursos"

  /** The manager page's state; `le` is the title collation. */
  class RecursoCrudPage {
    const le: (string, string) -> bool
    const rol: Option<string>
    const idusuario: Option<int>
    var recursos: seq<Resource>
    var filtered: seq<Resource>
    var busqueda: string
    var ordenAsc: bool
    var loading: bool
    var error: Option<string>

    /** The shown list holds exactly the search box's view of the loaded list, in some order. */
    ghost predicate Valid()
      reads this
    {
      multiset(filtered) == multiset(FilterView(recursos, Titulo, busqueda))
    }

    /** The page for the signed-in `user`, loading. */
    constructor (le: (string, string) -> bool, user: Option<User>)
      ensures Valid()
      ensures this.le == le && rol == RolOf(user) && idusuario == IdOf(user)
      ensures recursos == [] && filtered == [] && busqueda == "" && ordenAsc && loading && error == None
    {
      this.le := le;
      rol := RolOf(user);
      idusuario := IdOf(user);
      recursos := [];
      filtered := [];
      busqueda := "";
      ordenAsc := true;
      loading := true;
      error := None;
    }

    /** Whether the page shows the manager or the access-denied notice. */
    method AccessGranted() returns (granted: bool)
      ensures granted <==> CanManage(rol)
    {
      granted := rol.Some? && (rol.value == "admin" || rol.value == "docente");
    }

    /** The search effect, run after a change of the search box or of the loaded list. */
    method ApplyFilter()
      modifies this
      ensures Valid()
      ensures filtered == FilterView(recursos, Titulo, busqueda)
      ensures recursos == old(recursos) && busqueda == old(busqueda) && ordenAsc == old(ordenAsc)
      ensures loading == old(loading) && error == old(error)
    {
      var term := SearchTerm(busqueda);
      if term == "" {
        filtered := recursos;
      } else {
        filtered := FilterByTerm(recursos, Titulo, term);
      }
    }

    /**
     * The loading effect: on success both lists take the resources ascending by
     * title, on failure the error is set; loading ends either way.
     */
    method Load(response: Outcome<seq<Resource>>)
      requires Valid()
      modifies this
      ensures Valid()
      ensures response.Success? ==>
                recursos == SortByKey(response.value, Titulo, true, le) && error == old(error)
      ensures response.Success? ==> filtered == FilterView(recursos, Titulo, busqueda)
      ensures response.Failure? ==> recursos == old(recursos) && error == Some(LoadError)
      ensures response.Failure? ==> filtered == old(filtered)
      ensures busqueda == old(busqueda) && ordenAsc == old(ordenAsc) && !loading
    {
      if response.Success? {
        var ordenados := SortedCopy(response.value, Titulo, true, le);
        recursos := ordenados;
        filtered := ordenados;
        loading := false;
        ApplyFilter();
      } else {
        error := Some(LoadError);
        loading := false;
      }
    }

    /** Typing in the search box. */
    method SetBusqueda(text: string)
      modifies this
      ensures Valid()
      ensures busqueda == text && filtered == FilterView(recursos, Titulo, text)
      ensures recursos == old(recursos) && ordenAsc == old(ordenAsc)
      ensures loading == old(loading) && error == old(error)
    {
      busqueda := text;
      ApplyFilter();
    }

    /** `toggleOrden`: flips the order and re-sorts the shown list only. */
    method ToggleOrden()
      requires Valid()
      modifies this
      ensures Valid()
      ensures ordenAsc == !old(ordenAsc)
      ensures filtered == SortByKey(old(filtered), Titulo, ordenAsc, le)
      ensures TotalPreorder(le) ==> SortedBy(filtered, Titulo, ordenAsc, le)
      ensures recursos == old(recursos) && busqueda == old(busqueda)
      ensures loading == old(loading) && error == old(error)
    {
      var nuevo := !ordenAsc;
      var ordenados := SortedCopy(filtered, Titulo, nuevo, le);
      if TotalPreorder(le) {
        SortSorted(filtered, Titulo, nuevo, le);
      }
      ordenAsc := nuevo;
      filtered := ordenados;
    }

    /**
     * `handleDelete(id)`: without a usable id an alert; a declined confirmation does
     * nothing; otherwise the resource is deleted and, on success, dropped from the list.
     */
    method HandleDelete(id: Option<int>, confirmed: bool, response: Outcome<()>)
      returns (notice: DeleteNotice)
      requires Valid()
      modifies this
      ensures Valid()
      ensures id.None? || id.value == 0 ==> notice == InvalidId
      ensures id.Some? && id.value != 0 && !confirmed ==> notice == Cancelled
      ensures id.Some? && id.value != 0 && confirmed ==>
                notice == (if response.Success? then Deleted else DeleteFailed)
      ensures notice == Deleted ==>
                recursos == RemoveId(old(recursos), id.value) && filtered == FilterView(recursos, Titulo, busqueda)
      ensures notice != Deleted ==> recursos == old(recursos) && filtered == old(filtered)
      ensures busqueda == old(busqueda) && ordenAsc == old(ordenAsc)
      ensures loading == old(loading) && error == old(error)
    {
      if id.None? || id.value == 0 {
        return InvalidId;
      }
      if !confirmed {
        return Cancelled;
      }
      if response.Failure? {
        return DeleteFailed;
      }
      recursos := RemoveId(recursos, id.value);
      ApplyFilter();
      notice := Deleted;
    }
  }
}
