/**
 * The general filter bar: free text, four single-select facets (subject, resource
 * type, academic level, language), a date range with an "Aplicar" button, and the
 * parameter object it hands to the page's `onSearch`.
 */
module SearchBar {
  import opened Wrappers
  import opened Text
  import opened Catalog
  import opened Facets

  /**
   * The bar's `filters` record. `fechaInicio`/`fechaFin` are the keys "Aplicar"
   * adds to it (absent until then).
   */
  datatype Filters = Filters(
    asignatura: string,
    tipo: string,
    nivel: string,
    fecha: string,
    idioma: string,
    etiquetas: string,
    fechaInicio: Option<Day>,
    fechaFin: Option<Day>)

  const NoFilters := Filters("", "", "", "", "", "", None, None)

  /** The facets the bar offers a click on. */
  datatype Facet = Asignatura | Tipo | Nivel | Idioma

  function Get(f: Filters, key: Facet): string {
    match key
    case Asignatura => f.asignatura
    case Tipo => f.tipo
    case Nivel => f.nivel
    case Idioma => f.idioma
  }

  function Set(f: Filters, key: Facet, v: string): Filters {
    match key
    case Asignatura => f.(asignatura := v)
    case Tipo => f.(tipo := v)
    case Nivel => f.(nivel := v)
    case Idioma => f.(idioma := v)
  }

  /** The tag string the backend expects: subject, type and level, the non-empty ones. */
  function Tags(f: Filters): string {
    TagJoin([f.asignatura, f.tipo, f.nivel])
  }

  /** `etiquetas` agrees with the three tag facets. */
  predicate TagsAgree(f: Filters) {
    f.etiquetas == Tags(f)
  }

  /** `handleFilterClick(key, value)`: the state transition of one facet click. */
  function ClickFacet(f: Filters, key: Facet, value: string): (r: Filters)
    ensures Get(r, key) == (if Get(f, key) == value then "" else value)
    ensures forall k :: k != key ==> Get(r, k) == Get(f, k)
    ensures r.fecha == f.fecha && r.fechaInicio == f.fechaInicio && r.fechaFin == f.fechaFin
    ensures TagsAgree(r)
  {
    var n := Set(f, key, Toggle(Get(f, key), value));
    n.(etiquetas := Tags(n))
  }

  /** From a consistent record, a second identical click undoes the first when the field held none or that value. */
  lemma ClickTwiceRestores(f: Filters, key: Facet, value: string)
    requires TagsAgree(f)
    requires Get(f, key) == "" || Get(f, key) == value
    ensures ClickFacet(ClickFacet(f, key, value), key, value) == f
  {
  }

  /** A language click never changes the tags of a consistent record. */
  lemma IdiomaClickKeepsTags(f: Filters, value: string)
    requires TagsAgree(f)
    ensures ClickFacet(f, Idioma, value).etiquetas == f.etiquetas
  {
  }

  /** Choosing `Libro` and then `Avanzado` from nothing gives the tags "Libro,Avanzado". */
  lemma TwoFacetsExample()
    ensures ClickFacet(ClickFacet(NoFilters, Tipo, "Libro"), Nivel, "Avanzado").etiquetas == "Libro,Avanzado"
  {
    var f := ClickFacet(ClickFacet(NoFilters, Tipo, "Libro"), Nivel, "Avanzado");
    assert f.asignatura == "" && f.tipo == "Libro" && f.nivel == "Avanzado";
    assert NonEmpty(["", "Libro", "Avanzado"]) == ["Libro", "Avanzado"];
    assert ["Libro", "Avanzado"][..1] == ["Libro"];
  }

  /** `{ q, ...filters }`: the text and every key of the filter record. */
  function Spread(q: string, f: Filters): (p: Query)
    ensures p.q == Some(q) && p.fecha == Some(f.fecha)
    ensures p.asignatura == Some(f.asignatura) && p.tipo == Some(f.tipo) && p.nivel == Some(f.nivel)
    ensures p.idioma == Some(f.idioma) && p.etiquetas == Some(f.etiquetas)
    ensures p.fechaInicio == f.fechaInicio && p.fechaFin == f.fechaFin
    ensures p.verificado == None && p.ubicacion == None && p.limit == None && p.offset == None
  {
    Query(Some(q), Some(f.asignatura), Some(f.tipo), Some(f.nivel), Some(f.fecha), Some(f.idioma),
          Some(f.etiquetas), f.fechaInicio, f.fechaFin, None, None, None, None)
  }

  /** The component's state. */
  class GeneralBar {
    var q: string
    var filters: Filters
    var fechaInicio: Option<Day>
    var fechaFin: Option<Day>
    var mostrarCalendario: bool

    ghost predicate Valid()
      reads this
    {
      TagsAgree(filters)
    }

    constructor ()
      ensures Valid()
      ensures q == "" && filters == NoFilters && fechaInicio == None && fechaFin == None
      ensures !mostrarCalendario
    {
      q := "";
      filters := NoFilters;
      fechaInicio := None;
      fechaFin := None;
      mostrarCalendario := false;
    }

    /** Typing in the text box. */
    method SetQ(text: string)
      modifies this
      ensures q == text
      ensures filters == old(filters) && fechaInicio == old(fechaInicio) && fechaFin == old(fechaFin)
      ensures mostrarCalendario == old(mostrarCalendario)
    {
      q := text;
    }

    /** A click on a facet value. */
    method FilterClick(key: Facet, value: string)
      requires Valid()
      modifies this
      ensures Valid()
      ensures filters == ClickFacet(old(filters), key, value)
      ensures q == old(q) && fechaInicio == old(fechaInicio) && fechaFin == old(fechaFin)
      ensures mostrarCalendario == old(mostrarCalendario)
    {
      filters := ClickFacet(filters, key, value);
    }

    /** The "Rango de fecha" link opens or closes the calendar. */
    method ToggleCalendar()
      modifies this
      ensures mostrarCalendario == !old(mostrarCalendario)
      ensures q == old(q) && filters == old(filters)
      ensures fechaInicio == old(fechaInicio) && fechaFin == old(fechaFin)
    {
      mostrarCalendario := !mostrarCalendario;
    }

    /** The start picker's `onChange`. */
    method ChooseStart(date: Option<Day>)
      modifies this
      ensures fechaInicio == date
      ensures fechaFin == EndAfterStartChosen(old(fechaFin), date)
      ensures q == old(q) && filters == old(filters) && mostrarCalendario == old(mostrarCalendario)
    {
      fechaInicio := date;
      if fechaFin.Some? && date.Some? && date.value > fechaFin.value {
        fechaFin := None;
      }
    }

    /** The end picker's `onChange`: the end is stored whatever it is. */
    method ChooseEnd(date: Option<Day>)
      modifies this
      ensures fechaFin == date
      ensures q == old(q) && filters == old(filters) && fechaInicio == old(fechaInicio)
      ensures mostrarCalendario == old(mostrarCalendario)
    {
      fechaFin := date;
    }

    /** `handleSubmit`: the parameter object passed to `onSearch`. */
    method Submit() returns (params: Query)
      ensures params.q == Some(Trim(q))
      ensures params.asignatura == Some(filters.asignatura) && params.tipo == Some(filters.tipo)
      ensures params.nivel == Some(filters.nivel) && params.idioma == Some(filters.idioma)
      ensures params.fecha == Some(filters.fecha) && params.etiquetas == Some(filters.etiquetas)
      ensures fechaInicio.Some? && fechaFin.Some? ==>
                params.fechaInicio == fechaInicio && params.fechaFin == fechaFin
      ensures !(fechaInicio.Some? && fechaFin.Some?) ==>
                params.fechaInicio == filters.fechaInicio && params.fechaFin == filters.fechaFin
      ensures params.verificado == None && params.ubicacion == None
      ensures params.limit == None && params.offset == None
    {
      params := Spread(Trim(q), filters);
      if fechaInicio.Some? && fechaFin.Some? {
        params := params.(fechaInicio := fechaInicio, fechaFin := fechaFin);
      }
    }

    /**
     * The calendar's "Aplicar" button: with both dates chosen, records the range in
     * the filters and searches; it closes the calendar in any case.
     */
    method Aplicar() returns (sent: Option<Query>)
      requires Valid()
      modifies this
      ensures Valid()
      ensures sent.Some? <==> old(fechaInicio).Some? && old(fechaFin).Some?
      ensures sent.Some? ==>
                && filters == old(filters).(fecha := "rango", fechaInicio := fechaInicio, fechaFin := fechaFin)
                && sent.value == Spread(Trim(q), filters)
      ensures sent.None? ==> filters == old(filters)
      ensures !mostrarCalendario
      ensures q == old(q) && fechaInicio == old(fechaInicio) && fechaFin == old(fechaFin)
    {
      sent := None;
      if fechaInicio.Some? && fechaFin.Some? {
        filters := filters.(fecha := "rango", fechaInicio := fechaInicio, fechaFin := fechaFin);
        sent := Some(Spread(Trim(q), filters));
      }
      mostrarCalendario := false;
    }
  }

  /**
   * Submitting after "Aplicar" and a later start that cleared the end still sends the
   * applied range, because `handleSubmit` spreads `filters`, which keep it, while
   * the pickers show a different start and no end.
   */
  method AppliedRangeOutlivesClearedEnd() returns (shownStart: Option<Day>, shownEnd: Option<Day>, params: Query)
    ensures shownStart == Some(25) && shownEnd == None
    ensures params.fecha == Some("rango")
    ensures params.fechaInicio == Some(10) && params.fechaFin == Some(20)
  {
    var bar := new GeneralBar();
    bar.ChooseStart(Some(10));
    bar.ChooseEnd(Some(20));
    var applied := bar.Aplicar();
    bar.ChooseStart(Some(25));
    params := bar.Submit();
    shownStart := bar.fechaInicio;
    shownEnd := bar.fechaFin;
  }
}
