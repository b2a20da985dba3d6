/**
 * The authors page: it loads every author, filters them by a search box on the
 * author's name, and orders the shown list by name.
 */
module Autores {
  import opened Catalog
  import opened Collation

  /** An author as the page uses it. */
  datatype Autor = Autor(idautor: int, nombreautor: string)

  /** The name the page sorts and filters on. */
  function Nombre(a: Autor): string {
    a.nombreautor
  }

  /** The authors page's state; `le` is the name collation. */
  class AutoresPage {
    const le: (string, string) -> bool
    var autores: seq<Autor>
    var filtered: seq<Autor>
    var busqueda: string
    var ordenAsc: bool

    /** The shown list holds exactly the search box's view of the loaded authors, in some order. */
    ghost predicate Valid()
      reads this
    {
      multiset(filtered) == multiset(FilterView(autores, Nombre, busqueda))
    }

    constructor (le: (string, string) -> bool)
      ensures Valid()
      ensures this.le == le
      ensures autores == [] && filtered == [] && busqueda == "" && ordenAsc
    {
      this.le := le;
      autores := [];
      filtered := [];
      busqueda := "";
      ordenAsc := true;
    }

    /** The search effect, run after a change of the search box or of the loaded list. */
    method ApplyFilter()
      modifies this
      ensures Valid()
      ensures filtered == FilterView(autores, Nombre, busqueda)
      ensures autores == old(autores) && busqueda == old(busqueda) && ordenAsc == old(ordenAsc)
    {
      var term := SearchTerm(busqueda);
      if term == "" {
        filtered := autores;
      } else {
        filtered := FilterByTerm(autores, Nombre, term);
      }
    }

    /**
     * The loading effect: on success both lists take the authors ascending by name;
     * a failure is only logged and changes nothing.
     */
    method Load(response: Outcome<seq<Autor>>)
      requires Valid()
      modifies this
      ensures Valid()
      ensures response.Success? ==>
                autores == SortByKey(response.value, Nombre, true, le)
                && filtered == FilterView(autores, Nombre, busqueda)
      ensures response.Failure? ==> autores == old(autores) && filtered == old(filtered)
      ensures busqueda == old(busqueda) && ordenAsc == old(ordenAsc)
    {
      if response.Success? {
        var ordenados := SortedCopy(response.value, Nombre, true, le);
        autores := ordenados;
        filtered := ordenados;
        ApplyFilter();
      }
    }

    /** Typing in the search box. */
    method SetBusqueda(text: string)
      modifies this
      ensures Valid()
      ensures busqueda == text && filtered == FilterView(autores, Nombre, text)
      ensures autores == old(autores) && ordenAsc == old(ordenAsc)
    {
      busqueda := text;
      ApplyFilter();
    }

    /** `toggleOrden`: flips the order and re-sorts the shown list only. */
    method ToggleOrden()
      requires Valid()
      modifies this
      ensures Valid()
      ensures ordenAsc == !old(ordenAsc)
      ensures filtered == SortByKey(old(filtered), Nombre, ordenAsc, le)
      ensures TotalPreorder(le) ==> SortedBy(filtered, Nombre, ordenAsc, le)
      ensures autores == old(autores) && busqueda == old(busqueda)
    {
      var nuevo := !ordenAsc;
      var ordenados := SortedCopy(filtered, Nombre, nuevo, le);
      if TotalPreorder(le) {
        SortSorted(filtered, Nombre, nuevo, le);
      }
      ordenAsc := nuevo;
      filtered := ordenados;
    }
  }
}
