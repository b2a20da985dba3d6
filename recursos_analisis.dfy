/**
 * The numerical analysis resource list: it loads every resource tagged with the
 * subject, and shows them filtered by a local search box and ordered by title in the
 * direction of the order button.
 */
module RecursosAnalisis {
  import opened Wrappers
  import opened Text
  import opened Catalog
  import opened Collation

  /** `fetchAllAnalisis(q)`'s parameters: the text (empty when none) and the subject tag. */
  function FetchParams(q: Option<string>): (r: Query)
    ensures r.q == Some(q.GetOr("")) && r.etiquetas == Some("Analisis numerico")
    ensures r.(q := None, etiquetas := None) == NoParams
  {
    NoParams.(q := Some(q.GetOr("")), etiquetas := Some("Analisis numerico"))
  }

  /** The list shown: the loaded resources whose title includes the term, ordered by title. */
  function Visible(le: (string, string) -> bool, resultados: seq<Resource>, busqueda: string, asc: bool): seq<Resource> {
    SortByKey(FilterView(resultados, Titulo, busqueda), Titulo, asc, le)
  }

  /**
   * A resource is shown exactly when it is loaded and its lower-cased title includes
   * the term; the list is in order, and an element shows as often as it matches.
   */
  lemma {:induction false} VisibleSpec(le: (string, string) -> bool, resultados: seq<Resource>, busqueda: string, asc: bool)
    ensures var v := Visible(le, resultados, busqueda, asc);
            && (forall x :: x in v <==> x in resultados && Matches(x, Titulo, SearchTerm(busqueda)))
            && multiset(v) == multiset(FilterByTerm(resultados, Titulo, SearchTerm(busqueda)))
            && (TotalPreorder(le) ==> SortedBy(v, Titulo, asc, le))
  {
    var f := FilterView(resultados, Titulo, busqueda);
    FilterViewSpec(resultados, Titulo, busqueda);
    SortPermutes(f, Titulo, asc, le);
    if TotalPreorder(le) {
      SortSorted(f, Titulo, asc, le);
    }
  }

  /** Nothing loaded, nothing shown. */
  lemma VisibleEmpty(le: (string, string) -> bool, busqueda: string, asc: bool)
    ensures Visible(le, [], busqueda, asc) == []
  {
  }

  /** The page's state; `le` is the title collation. */
  class RecursosAnalisisNumerico {
    const le: (string, string) -> bool
    var resultados: seq<Resource>
    var filtered: seq<Resource>
    var busqueda: string
    var loading: bool
    var lastQuery: string
    var ordenAsc: bool

    /** The shown list always follows the loaded list, the search box and the order. */
    ghost predicate Valid()
      reads this
    {
      filtered == Visible(le, resultados, busqueda, ordenAsc)
    }

    constructor (le: (string, string) -> bool)
      ensures Valid()
      ensures this.le == le
      ensures resultados == [] && filtered == [] && busqueda == "" && !loading && lastQuery == "" && ordenAsc
    {
      this.le := le;
      resultados := [];
      filtered := [];
      busqueda := "";
      loading := false;
      lastQuery := "";
      ordenAsc := true;
      VisibleEmpty(le, "", true);
    }

    /** The filtering effect, run after a change of the search box, the loaded list or the order. */
    method ApplyFilter()
      modifies this
      ensures Valid()
      ensures resultados == old(resultados) && busqueda == old(busqueda) && ordenAsc == old(ordenAsc)
      ensures loading == old(loading) && lastQuery == old(lastQuery)
    {
      var base := FilterView(resultados, Titulo, busqueda);
      var shown := SortedCopy(base, Titulo, ordenAsc, le);
      assert shown == Visible(le, resultados, busqueda, ordenAsc);
      filtered := shown;
    }

    /**
     * `fetchAllAnalisis(q)`: on success both lists take the loaded resources ordered in
     * the current direction and `q` becomes the last query; on failure both are empty.
     * Returns the parameters sent.
     */
    method FetchAll(q: Option<string>, response: Outcome<Option<seq<Resource>>>) returns (sent: Query)
      modifies this
      ensures Valid()
      ensures sent == FetchParams(q)
      ensures response.Success? ==>
                resultados == SortByKey(Items(response.value), Titulo, ordenAsc, le) && lastQuery == q.GetOr("")
      ensures response.Failure? ==> resultados == [] && lastQuery == old(lastQuery)
      ensures busqueda == old(busqueda) && ordenAsc == old(ordenAsc) && !loading
    {
      loading := true;
      sent := FetchParams(q);
      Store(q, response);
      loading := false;
      ApplyFilter();
    }

    /** The awaited call's outcome stored in both lists, before the filtering effect runs. */
    method Store(q: Option<string>, response: Outcome<Option<seq<Resource>>>)
      modifies this
      ensures response.Success? ==>
                && resultados == SortByKey(Items(response.value), Titulo, ordenAsc, le)
                && filtered == resultados && lastQuery == q.GetOr("")
      ensures response.Failure? ==> resultados == [] && filtered == [] && lastQuery == old(lastQuery)
      ensures busqueda == old(busqueda) && ordenAsc == old(ordenAsc) && loading == old(loading)
    {
      if response.Success? {
        var ordenados := SortedCopy(Items(response.value), Titulo, ordenAsc, le);
        resultados := ordenados;
        filtered := ordenados;
        lastQuery := q.GetOr("");
      } else {
        resultados := [];
        filtered := [];
      }
    }

    /** Typing in the local search box. */
    method SetBusqueda(text: string)
      modifies this
      ensures Valid()
      ensures busqueda == text
      ensures resultados == old(resultados) && ordenAsc == old(ordenAsc)
      ensures loading == old(loading) && lastQuery == old(lastQuery)
    {
      busqueda := text;
      ApplyFilter();
    }

    /** `toggleOrden`: flips the order and re-sorts both lists in the new direction. */
    method ToggleOrden()
      modifies this
      ensures Valid()
      ensures ordenAsc == !old(ordenAsc)
      ensures resultados == SortByKey(old(resultados), Titulo, ordenAsc, le)
      ensures multiset(resultados) == multiset(old(resultados))
      ensures busqueda == old(busqueda) && loading == old(loading) && lastQuery == old(lastQuery)
    {
      var nuevo := !ordenAsc;
      ordenAsc := nuevo;
      filtered := SortedCopy(filtered, Titulo, nuevo, le);
      resultados := SortedCopy(resultados, Titulo, nuevo, le);
      ApplyFilter();
    }
  }
}
