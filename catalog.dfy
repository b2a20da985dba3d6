/**
 * The records the search pages pass around: the search parameter object handed to
 * `buscarRecursos` (an untyped record in the source, every key optional), the catalog
 * resource, and the outcome of a call to a remote service.
 */
module Catalog {
  import opened Wrappers

  /** A calendar day, as an ordered day number; its ISO rendering is left abstract. */
  type Day = int

  /**
   * A search parameter object. Every key may be absent; a present key holds the
   * value the source would put there (`fechaInicio`/`fechaFin` hold the day whose
   * ISO date string the source sends).
   */
  datatype Query = Query(
    q: Option<string>,
    asignatura: Option<string>,
    tipo: Option<string>,
    nivel: Option<string>,
    fecha: Option<string>,
    idioma: Option<string>,
    etiquetas: Option<string>,
    fechaInicio: Option<Day>,
    fechaFin: Option<Day>,
    verificado: Option<bool>,
    ubicacion: Option<string>,
    limit: Option<int>,
    offset: Option<int>)

  /** The object literal `{}`. */
  const NoParams := Query(None, None, None, None, None, None, None, None, None, None, None, None, None)

  /** JavaScript truthiness of an optional string: present and non-empty. */
  predicate Truthy(s: Option<string>) {
    s.Some? && s.value != ""
  }

  /** `x || undefined` for a string: the value if it is non-empty, otherwise absent. */
  function OrAbsent(s: string): (r: Option<string>)
    ensures Truthy(r) <==> s != ""
    ensures r.Some? ==> r.value == s
  {
    if s == "" then None else Some(s)
  }

  /** A catalog resource as the pages use it. */
  datatype Resource = Resource(idrecurso: Option<int>, titulo: string, idusuarioCreador: Option<int>)

  /** The title a page sorts and filters on. */
  function Titulo(r: Resource): string {
    r.titulo
  }

  /** The outcome of an awaited call to a remote service: its value, or a thrown error. */
  datatype Outcome<T> = Success(value: T) | Failure

  /** The `resultados` key of a search response, `[]` when it is missing. */
  function Items(resultados: Option<seq<Resource>>): seq<Resource> {
    resultados.GetOr([])
  }

  /** The browser's `localStorage`: string values under string keys. */
  type Storage = map<string, string>

  /** `localStorage.getItem(key)`: the stored value, or `null` when the key is missing. */
  function GetItem(storage: Storage, key: string): (r: Option<string>)
    ensures r.Some? <==> key in storage
    ensures r.Some? ==> r.value == storage[key]
  {
    if key in storage then Some(storage[key]) else None
  }
}
