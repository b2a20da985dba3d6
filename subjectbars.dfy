/**
 * The two subject filter bars (graph theory and numerical analysis). They differ only
 * in the subject tag they pin to every search: both offer resource type, level and
 * language facets and a date range, translate the language to a code, and always
 * send the pinned subject among the tags.
 */
module SubjectSearchBars {
  import opened Wrappers
  import opened Text
  import opened Catalog
  import opened Facets

  /** The bar's `filters` record (no subject facet); `fechaInicio`/`fechaFin` are added by "Aplicar". */
  datatype SubjectFilters = SubjectFilters(
    tipo: string,
    nivel: string,
    fecha: string,
    idioma: string,
    etiquetas: string,
    fechaInicio: Option<Day>,
    fechaFin: Option<Day>)

  const NoSubjectFilters := SubjectFilters("", "", "", "", "", None, None)

  /** The facets the bar offers a click on. */
  datatype SubjectFacet = Tipo | Nivel | Idioma

  function Get(f: SubjectFilters, key: SubjectFacet): string {
    match key
    case Tipo => f.tipo
    case Nivel => f.nivel
    case Idioma => f.idioma
  }

  function Set(f: SubjectFilters, key: SubjectFacet, v: string): SubjectFilters {
    match key
    case Tipo => f.(tipo := v)
    case Nivel => f.(nivel := v)
    case Idioma => f.(idioma := v)
  }

  /** Type and level, the non-empty ones, comma-joined. */
  function Tags(f: SubjectFilters): string {
    TagJoin([f.tipo, f.nivel])
  }

  predicate TagsAgree(f: SubjectFilters) {
    f.etiquetas == Tags(f)
  }

  /** `handleFilterClick(key, value)`. */
  function ClickFacet(f: SubjectFilters, key: SubjectFacet, value: string): (r: SubjectFilters)
    ensures Get(r, key) == (if Get(f, key) == value then "" else value)
    ensures forall k :: k != key ==> Get(r, k) == Get(f, k)
    ensures r.fecha == f.fecha && r.fechaInicio == f.fechaInicio && r.fechaFin == f.fechaFin
    ensures TagsAgree(r)
  {
    var n := Set(f, key, Toggle(Get(f, key), value));
    n.(etiquetas := Tags(n))
  }

  /**
   * The tags sent: the bar's current tags and the pinned subject, each trimmed, the
   * non-empty ones comma-joined (no de-duplication).
   */
  function CombineTags(etiquetas: string, pinned: string): string {
    var actuales := if etiquetas != "" then Trim(etiquetas) else "";
    Join(",", NonEmpty([Trim(actuales), Trim(pinned)]))
  }

  /**
   * With a trimmed, non-empty pinned subject, the tags sent are exactly the pinned
   * subject when the bar has none, and otherwise the bar's trimmed tags followed by it.
   */
  lemma {:induction false} CombineTagsShape(etiquetas: string, pinned: string)
    requires pinned != "" && Trim(pinned) == pinned
    ensures CombineTags(etiquetas, pinned) ==
              if Trim(etiquetas) == "" then pinned else Trim(etiquetas) + "," + pinned
  {
    var actuales := if etiquetas != "" then Trim(etiquetas) else "";
    assert Trim(actuales) == Trim(etiquetas) by {
      TrimIdempotent(etiquetas);
    }
    JoinNonEmptyTwo(Trim(etiquetas), pinned);
  }

  lemma {:induction false} JoinNonEmptyTwo(a: string, b: string)
    requires b != ""
    ensures Join(",", NonEmpty([a, b])) == if a == "" then b else a + "," + b
  {
    NonEmptyTwo(a, b);
    if a != "" {
      JoinTwo(",", a, b);
    }
  }

  /**
   * The language facet's code: "Español" is `es`, "Inglés" is `en`, "Otro..." is
   * `otro`, and anything else (including no selection) sends no language.
   */
  function LanguageCode(idioma: string): (r: Option<string>)
    ensures r.Some? <==> idioma in {"Español", "Inglés", "Otro..."}
    ensures r.Some? ==> r.value in {"es", "en", "otro"}
  {
    if idioma == "Español" then Some("es")
    else if idioma == "Inglés" then Some("en")
    else if idioma == "Otro..." then Some("otro")
    else None
  }

  /** Distinct selections give distinct codes. */
  lemma LanguageCodeInjective(a: string, b: string)
    requires LanguageCode(a).Some? && LanguageCode(a) == LanguageCode(b)
    ensures a == b
  {
  }

  /** The parameters both the submit handler and "Aplicar" build from the filters, before the text and the dates. */
  function FacetParams(f: SubjectFilters, pinned: string): (p: Query)
    ensures p.etiquetas == Some(CombineTags(f.etiquetas, pinned))
    ensures p.tipo == OrAbsent(f.tipo) && p.nivel == OrAbsent(f.nivel)
    ensures p.idioma == LanguageCode(f.idioma)
    ensures p.q == None && p.asignatura == None && p.fecha == None
    ensures p.fechaInicio == None && p.fechaFin == None
    ensures p.verificado == None && p.ubicacion == None && p.limit == None && p.offset == None
  {
    NoParams.(etiquetas := Some(CombineTags(f.etiquetas, pinned)), tipo := OrAbsent(f.tipo),
              nivel := OrAbsent(f.nivel), idioma := LanguageCode(f.idioma))
  }

  /** The state of one subject bar; `pinned` is the subject it always sends. */
  class SubjectBar {
    const pinned: string
    var q: string
    var filters: SubjectFilters
    var fechaInicio: Option<Day>
    var fechaFin: Option<Day>
    var mostrarCalendario: bool

    ghost predicate Valid()
      reads this
    {
      pinned != "" && Trim(pinned) == pinned && TagsAgree(filters)
    }

    /** The graph theory bar. */
    constructor TeoriaGrafos()
      ensures Valid() && pinned == "Teoria de grafos"
      ensures q == "" && filters == NoSubjectFilters && fechaInicio == None && fechaFin == None
      ensures !mostrarCalendario
    {
      pinned := "Teoria de grafos";
      q := "";
      filters := NoSubjectFilters;
      fechaInicio := None;
      fechaFin := None;
      mostrarCalendario := false;
    }

    /** The numerical analysis bar. */
    constructor AnalisisNumerico()
      ensures Valid() && pinned == "Analisis numerico"
      ensures q == "" && filters == NoSubjectFilters && fechaInicio == None && fechaFin == None
      ensures !mostrarCalendario
    {
      pinned := "Analisis numerico";
      q := "";
      filters := NoSubjectFilters;
      fechaInicio := None;
      fechaFin := None;
      mostrarCalendario := false;
    }

    method SetQ(text: string)
      modifies this
      ensures q == text
      ensures filters == old(filters) && fechaInicio == old(fechaInicio) && fechaFin == old(fechaFin)
      ensures mostrarCalendario == old(mostrarCalendario)
    {
      q := text;
    }

    method FilterClick(key: SubjectFacet, value: string)
      requires Valid()
      modifies this
      ensures Valid()
      ensures filters == ClickFacet(old(filters), key, value)
      ensures q == old(q) && fechaInicio == old(fechaInicio) && fechaFin == old(fechaFin)
      ensures mostrarCalendario == old(mostrarCalendario)
    {
      filters := ClickFacet(filters, key, value);
    }

    method ToggleCalendar()
      modifies this
      ensures mostrarCalendario == !old(mostrarCalendario)
      ensures q == old(q) && filters == old(filters)
      ensures fechaInicio == old(fechaInicio) && fechaFin == old(fechaFin)
    {
      mostrarCalendario := !mostrarCalendario;
    }

    method ChooseStart(date: Option<Day>)
      modifies this
      ensures fechaInicio == date
      ensures fechaFin == EndAfterStartChosen(old(fechaFin), date)
      ensures q == old(q) && filters == old(filters) && mostrarCalendario == old(mostrarCalendario)
    {
      fechaInicio := date;
      if fechaFin.Some? && date.Some? && date.value > fechaFin.value {
        fechaFin := None;
      }
    }

    method ChooseEnd(date: Option<Day>)
      modifies this
      ensures fechaFin == date
      ensures q == old(q) && filters == old(filters) && fechaInicio == old(fechaInicio)
      ensures mostrarCalendario == old(mostrarCalendario)
    {
      fechaFin := date;
    }

    /**
     * `handleSubmit`: the trimmed text (possibly empty), the facets, the tags with the
     * pinned subject, and the picked dates only when both are picked.
     */
    method Submit() returns (params: Query)
      requires Valid()
      ensures params.q == Some(Trim(q))
      ensures params.etiquetas.Some? && Contains(params.etiquetas.value, pinned)
      ensures params.etiquetas == Some(CombineTags(filters.etiquetas, pinned))
      ensures params.tipo == OrAbsent(filters.tipo) && params.nivel == OrAbsent(filters.nivel)
      ensures params.idioma == LanguageCode(filters.idioma)
      ensures params.asignatura == None && params.fecha == None
      ensures (params.fechaInicio.Some? || params.fechaFin.Some?) <==> fechaInicio.Some? && fechaFin.Some?
      ensures params.fechaInicio.Some? ==> params.fechaInicio == fechaInicio && params.fechaFin == fechaFin
      ensures params.verificado == None && params.ubicacion == None
      ensures params.limit == None && params.offset == None
    {
      CombineTagsShape(filters.etiquetas, pinned);
      PinnedContained(filters.etiquetas, pinned);
      params := FacetParams(filters, pinned).(q := Some(Trim(q)));
      if fechaInicio.Some? && fechaFin.Some? {
        params := params.(fechaInicio := fechaInicio, fechaFin := fechaFin);
      }
    }

    /**
     * "Aplicar": with both dates picked, records the range in the filters and
     * searches with the text (absent when blank), the facets, the tags with the pinned
     * subject and the range; it closes the calendar in any case.
     */
    method Aplicar() returns (sent: Option<Query>)
      requires Valid()
      modifies this
      ensures Valid()
      ensures sent.Some? <==> old(fechaInicio).Some? && old(fechaFin).Some?
      ensures sent.None? ==> filters == old(filters)
      ensures sent.Some? ==>
                && filters == old(filters).(fecha := "rango", fechaInicio := fechaInicio, fechaFin := fechaFin)
                && sent.value == FacetParams(filters, pinned).(q := OrAbsent(Trim(q)),
                                   fechaInicio := fechaInicio, fechaFin := fechaFin)
                && Contains(sent.value.etiquetas.value, pinned)
      ensures !mostrarCalendario
      ensures q == old(q) && fechaInicio == old(fechaInicio) && fechaFin == old(fechaFin)
    {
      sent := None;
      if fechaInicio.Some? && fechaFin.Some? {
        filters := filters.(fecha := "rango", fechaInicio := fechaInicio, fechaFin := fechaFin);
        PinnedContained(filters.etiquetas, pinned);
        sent := Some(FacetParams(filters, pinned).(q := OrAbsent(Trim(q)),
                                                  fechaInicio := fechaInicio, fechaFin := fechaFin));
      }
      mostrarCalendario := false;
    }
  }

  /** The pinned subject always occurs in the tags sent. */
  lemma {:induction false} PinnedContained(etiquetas: string, pinned: string)
    requires pinned != "" && Trim(pinned) == pinned
    ensures Contains(CombineTags(etiquetas, pinned), pinned)
  {
    CombineTagsShape(etiquetas, pinned);
    EndsWithTag(CombineTags(etiquetas, pinned), Trim(etiquetas), pinned);
  }

  lemma {:induction false} EndsWithTag(x: string, e: string, tag: string)
    requires x == if e == "" then tag else e + "," + tag
    ensures Contains(x, tag)
  {
    var pre := if e == "" then "" else e + ",";
    assert x == pre + tag;
    ContainsSuffix(pre, tag);
  }

  /**
   * Choosing a type and then a level in a fresh bar, say `Libro` and `Avanzado` in the
   * graph theory bar, sends the type, the level and the pinned subject comma-joined,
   * "Libro,Avanzado,Teoria de grafos".
   */
  lemma TypeThenLevelTags(tipo: string, nivel: string, pinned: string)
    requires tipo != "" && IsTrimmed(tipo) && nivel != "" && IsTrimmed(nivel)
    requires pinned != "" && IsTrimmed(pinned)
    ensures var f := ClickFacet(ClickFacet(NoSubjectFilters, Tipo, tipo), Nivel, nivel);
            CombineTags(f.etiquetas, pinned) == tipo + "," + nivel + "," + pinned
  {
    var f := ClickFacet(ClickFacet(NoSubjectFilters, Tipo, tipo), Nivel, nivel);
    TwoFacetTags(f);
    TrimmedPair(tipo, nivel);
    TrimmedTagsCombine(f.etiquetas, pinned);
  }

  /** Trimmed bar tags and a trimmed pinned subject are sent comma-joined, as they are. */
  lemma TrimmedTagsCombine(etiquetas: string, pinned: string)
    requires etiquetas != "" && IsTrimmed(etiquetas)
    requires pinned != "" && IsTrimmed(pinned)
    ensures CombineTags(etiquetas, pinned) == etiquetas + "," + pinned
  {
    TrimTrimmed(etiquetas);
    TrimTrimmed(pinned);
    CombineTagsShape(etiquetas, pinned);
  }

  /** With a type and a level chosen, the bar's tags are the two comma-joined. */
  lemma {:induction false} TwoFacetTags(f: SubjectFilters)
    requires TagsAgree(f) && f.tipo != "" && f.nivel != ""
    ensures f.etiquetas == f.tipo + "," + f.nivel
  {
    JoinNonEmptyTwo(f.tipo, f.nivel);
  }
}
