/**
 * The home page: it turns the general bar's payload into the search service's
 * parameters, searches only when some filter is set, and lists the results ordered
 * by title, with a button that reverses the order.
 */
module Home {
  import opened Wrappers
  import opened Text
  import opened Catalog
  import opened Collation
  import opened Facets
  import SearchBar

  /** The payload's text, trimmed; empty when absent. */
  function QueryText(p: Query): string {
    if p.q.Some? then Trim(p.q.value) else ""
  }

  /**
   * The language sent for a selected language: a lower-cased value naming English is
   * `en`, one naming Spanish is `es`, and anything else is sent as it came.
   */
  function MapIdioma(idioma: string): (r: string)
    ensures r == "en" || r == "es" || r == idioma
    ensures r == "" <==> idioma == ""
  {
    var idi := ToLower(idioma);
    if Contains(idi, "inglés") || Contains(idi, "ingles") then "en"
    else if Contains(idi, "español") || Contains(idi, "espanol") then "es"
    else idioma
  }

  /** The labels the general bar offers map to `en`, `es` and the label itself. */
  lemma {:induction false} MapIdiomaEnglish()
    ensures MapIdioma("Inglés") == "en"
  {
    assert ToLower("Inglés") == "inglés";
    ContainsAt("inglés", "inglés", 0);
  }

  lemma {:induction false} MapIdiomaSpanish()
    ensures MapIdioma("Español") == "es"
  {
    var e := "Español";
    assert forall k :: 0 <= k < |e| ==> LowerChar(e[k]) != 'i';
    assert ToLower(e) == "español";
    ContainsAt("español", "español", 0);
    SpanishWord(e);
  }

  /** A value naming Spanish, with no "i" to start an English name, is sent as `es`. */
  lemma {:induction false} SpanishWord(idioma: string)
    requires forall k :: 0 <= k < |idioma| ==> LowerChar(idioma[k]) != 'i'
    requires Contains(ToLower(idioma), "español")
    ensures MapIdioma(idioma) == "es"
  {
    var idi := ToLower(idioma);
    assert 'i' !in idi;
    NotContainsWithoutFirst(idi, "inglés");
    NotContainsWithoutFirst(idi, "ingles");
  }

  lemma {:induction false} MapIdiomaOther()
    ensures MapIdioma("Otro...") == "Otro..."
  {
    var o := "Otro...";
    assert forall k :: 0 <= k < |o| ==> LowerChar(o[k]) != 'i' && LowerChar(o[k]) != 'e';
    PassThrough(o);
  }

  /** A value whose lowercase letters include neither "i" nor "e" is sent unchanged. */
  lemma {:induction false} PassThrough(idioma: string)
    requires forall k :: 0 <= k < |idioma| ==> LowerChar(idioma[k]) != 'i' && LowerChar(idioma[k]) != 'e'
    ensures MapIdioma(idioma) == idioma
  {
    var idi := ToLower(idioma);
    assert 'i' !in idi && 'e' !in idi;
    NotContainsWithoutFirst(idi, "inglés");
    NotContainsWithoutFirst(idi, "ingles");
    NotContainsWithoutFirst(idi, "español");
    NotContainsWithoutFirst(idi, "espanol");
  }

  /** A string does not include a word whose first letter it lacks. */
  lemma {:induction false} NotContainsWithoutFirst(s: string, t: string)
    requires t != [] && t[0] !in s
    ensures !Contains(s, t)
    decreases |s|
  {
    if |t| <= |s| {
      assert s[..|t|][0] == s[0];
      assert forall c :: c in s[1..] ==> c in s;
      NotContainsWithoutFirst(s[1..], t);
    }
  }

  /** A facet label the payload names, trimmed, as a list of zero or one tags. */
  function Label(o: Option<string>): seq<string> {
    if Truthy(o) then [Trim(o.value)] else []
  }

  /** The facet labels the payload names, trimmed, in the order subject, type, level. */
  function FacetTags(p: Query): seq<string> {
    Label(p.asignatura) + Label(p.tipo) + Label(p.nivel)
  }

  /** The payload's own tags when they are not blank, else the facet labels, else none. */
  function EtiquetasParam(p: Query): Option<string> {
    if p.etiquetas.Some? && Trim(p.etiquetas.value) != "" then Some(Trim(p.etiquetas.value))
    else if |FacetTags(p)| > 0 then Some(Join(",", FacetTags(p)))
    else None
  }

  /**
   * `mapFiltersToParams`: the parameters sent for a payload. Subject, type, level and
   * the `fecha` selector travel only inside the tags; paging defaults to 10 from 0.
   */
  function Params(p: Query): (r: Query)
    ensures r.q.Some? <==> QueryText(p) != ""
    ensures r.q.Some? ==> r.q.value == QueryText(p)
    ensures r.asignatura == None && r.tipo == None && r.nivel == None && r.fecha == None
    ensures Truthy(r.idioma) <==> Truthy(p.idioma)
    ensures Truthy(p.idioma) ==> r.idioma == Some(MapIdioma(p.idioma.value))
    ensures !Truthy(p.idioma) ==> r.idioma == None
    ensures r.etiquetas == EtiquetasParam(p)
    ensures r.fechaInicio == p.fechaInicio && r.fechaFin == p.fechaFin
    ensures r.verificado == p.verificado
    ensures r.ubicacion == (if Truthy(p.ubicacion) then p.ubicacion else None)
    ensures r.limit == Some(if p.limit.Some? then p.limit.value else 10)
    ensures r.offset == Some(if p.offset.Some? then p.offset.value else 0)
  {
    Query(
      OrAbsent(QueryText(p)),
      None, None, None, None,
      if Truthy(p.idioma) then Some(MapIdioma(p.idioma.value)) else None,
      EtiquetasParam(p),
      p.fechaInicio, p.fechaFin,
      p.verificado,
      if Truthy(p.ubicacion) then p.ubicacion else None,
      Some(p.limit.GetOr(10)),
      Some(p.offset.GetOr(0)))
  }

  /** The guard of `handleSearch`: some filter of the mapped parameters is set. */
  predicate HasAnyFilter(r: Query) {
    || Truthy(r.q)
    || Truthy(r.etiquetas)
    || (r.fechaInicio.Some? && r.fechaFin.Some?)
    || Truthy(r.idioma)
    || r.verificado.Some?
    || Truthy(r.ubicacion)
  }

  /** Non-blank tags written in the payload win over the facet labels. */
  lemma WrittenTagsWin(p: Query)
    requires p.etiquetas.Some? && Trim(p.etiquetas.value) != ""
    ensures EtiquetasParam(p) == Some(Trim(p.etiquetas.value))
  {
  }

  /**
   * With no written tags and trimmed facet labels, the tags sent are the bar's own
   * rule: the non-empty labels of subject, type and level, comma-joined.
   */
  lemma {:induction false} FacetFallbackMatchesBar(p: Query)
    requires p.etiquetas.None? || Trim(p.etiquetas.value) == ""
    requires p.asignatura.Some? ==> Trim(p.asignatura.value) == p.asignatura.value
    requires p.tipo.Some? ==> Trim(p.tipo.value) == p.tipo.value
    requires p.nivel.Some? ==> Trim(p.nivel.value) == p.nivel.value
    ensures var tags := TagJoin([p.asignatura.GetOr(""), p.tipo.GetOr(""), p.nivel.GetOr("")]);
            EtiquetasParam(p) == OrAbsent(tags)
  {
    var vs := [p.asignatura.GetOr(""), p.tipo.GetOr(""), p.nivel.GetOr("")];
    var tags := FacetTags(p);
    FacetTagsAreNonEmptyLabels(p);
    TagJoinEmpty(vs);
    if tags != [] {
      forall k | 0 <= k < |tags| ensures tags[k] != "" {
        assert tags[k] in NonEmpty(vs);
      }
      JoinNonEmptyParts(tags);
    }
  }

  lemma {:induction false} FacetTagsAreNonEmptyLabels(p: Query)
    requires p.asignatura.Some? ==> Trim(p.asignatura.value) == p.asignatura.value
    requires p.tipo.Some? ==> Trim(p.tipo.value) == p.tipo.value
    requires p.nivel.Some? ==> Trim(p.nivel.value) == p.nivel.value
    ensures FacetTags(p) == NonEmpty([p.asignatura.GetOr(""), p.tipo.GetOr(""), p.nivel.GetOr("")])
  {
    LabelTrimmed(p.asignatura);
    LabelTrimmed(p.tipo);
    LabelTrimmed(p.nivel);
    NonEmptyThree(p.asignatura.GetOr(""), p.tipo.GetOr(""), p.nivel.GetOr(""));
  }

  lemma LabelTrimmed(o: Option<string>)
    requires o.Some? ==> Trim(o.value) == o.value
    ensures Label(o) == if o.GetOr("") == "" then [] else [o.GetOr("")]
  {
  }

  /**
   * The search goes out exactly when the payload has non-blank text, tags that are not
   * empty, both ends of a date range, a language, a verified flag or a location.
   */
  lemma SearchSentIff(p: Query)
    ensures HasAnyFilter(Params(p)) <==>
              || QueryText(p) != ""
              || Truthy(EtiquetasParam(p))
              || (p.fechaInicio.Some? && p.fechaFin.Some?)
              || Truthy(p.idioma)
              || p.verificado.Some?
              || Truthy(p.ubicacion)
  {
  }

  /** A range with only one end set, and nothing else, sends no search. */
  lemma OneBoundSearchesNothing(d: Day, start: bool)
    ensures !HasAnyFilter(Params(if start then NoParams.(fechaInicio := Some(d)) else NoParams.(fechaFin := Some(d))))
  {
  }

  /** Submitting the general bar untouched sends no search. */
  lemma {:induction false} UntouchedBarSearchesNothing()
    ensures !HasAnyFilter(Params(SearchBar.Spread("", SearchBar.NoFilters)))
  {
    var p := SearchBar.Spread("", SearchBar.NoFilters);
    assert Trim("") == "";
    assert FacetTags(p) == [];
  }

  /** The home page's state; `le` is the title collation. */
  class HomePage {
    const le: (string, string) -> bool
    var resultados: seq<Resource>
    var loading: bool
    var lastQuery: string
    var ordenAsc: bool

    constructor (le: (string, string) -> bool)
      ensures this.le == le
      ensures resultados == [] && !loading && lastQuery == "" && ordenAsc
    {
      this.le := le;
      resultados := [];
      loading := false;
      lastQuery := "";
      ordenAsc := true;
    }

    /** `mapFiltersToParams`, which also records a non-blank text as the last query. */
    method MapFiltersToParams(payload: Query) returns (params: Query)
      modifies this
      ensures params == Params(payload)
      ensures lastQuery == (if QueryText(payload) != "" then QueryText(payload) else old(lastQuery))
      ensures resultados == old(resultados) && loading == old(loading) && ordenAsc == old(ordenAsc)
    {
      params := Params(payload);
      if payload.q.Some? && Trim(payload.q.value) != "" {
        lastQuery := Trim(payload.q.value);
      }
    }

    /**
     * `handleSearch`: with a payload whose parameters set some filter, searches and
     * lists the results ascending by title (or none when the call fails). Returns the
     * parameters sent, if any. The order flag is left as it was.
     */
    method HandleSearch(payload: Option<Query>, response: Outcome<Option<seq<Resource>>>)
      returns (sent: Option<Query>)
      modifies this
      ensures sent.Some? <==> payload.Some? && HasAnyFilter(Params(payload.value))
      ensures sent.Some? ==> sent.value == Params(payload.value)
      ensures sent.Some? ==> resultados == (if response.Success? then SortByKey(Items(response.value), Titulo, true, le) else [])
      ensures sent.Some? && response.Success? && TotalPreorder(le) ==>
                SortedBy(resultados, Titulo, true, le) && multiset(resultados) == multiset(Items(response.value))
      ensures sent.None? ==> resultados == old(resultados)
      ensures payload.None? ==> lastQuery == old(lastQuery)
      ensures payload.Some? ==>
                lastQuery == (if QueryText(payload.value) != "" then QueryText(payload.value) else old(lastQuery))
      ensures sent.Some? ==> !loading
      ensures sent.None? ==> loading == old(loading)
      ensures ordenAsc == old(ordenAsc)
    {
      sent := None;
      if payload.None? {
        return;
      }
      var params := MapFiltersToParams(payload.value);
      if !HasAnyFilter(params) {
        return;
      }
      sent := Some(params);
      ShowResults(response);
    }

    /** The search call's outcome listed ascending by title, or nothing on a failure. */
    method ShowResults(response: Outcome<Option<seq<Resource>>>)
      modifies this
      ensures resultados == (if response.Success? then SortByKey(Items(response.value), Titulo, true, le) else [])
      ensures response.Success? && TotalPreorder(le) ==>
                SortedBy(resultados, Titulo, true, le) && multiset(resultados) == multiset(Items(response.value))
      ensures !loading
      ensures lastQuery == old(lastQuery) && ordenAsc == old(ordenAsc)
    {
      loading := true;
      if response.Success? {
        var sorted := SortedCopy(Items(response.value), Titulo, true, le);
        if TotalPreorder(le) {
          SortSorted(Items(response.value), Titulo, true, le);
        }
        resultados := sorted;
      } else {
        resultados := [];
      }
      loading := false;
    }

    /** `toggleOrden`: flips the order and re-sorts the listed results in the new direction. */
    method ToggleOrden()
      modifies this
      ensures ordenAsc == !old(ordenAsc)
      ensures resultados == SortByKey(old(resultados), Titulo, ordenAsc, le)
      ensures TotalPreorder(le) ==> SortedBy(resultados, Titulo, ordenAsc, le)
      ensures multiset(resultados) == multiset(old(resultados))
      ensures loading == old(loading) && lastQuery == old(lastQuery)
    {
      ordenAsc := !ordenAsc;
      resultados := SortedCopy(resultados, Titulo, ordenAsc, le);
      if TotalPreorder(le) {
        SortSorted(old(resultados), Titulo, ordenAsc, le);
      }
    }
  }
}
