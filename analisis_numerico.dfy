/**
 * The numerical analysis page: whatever the bar sends, it makes sure the subject tag
 * is among the tags, drops the subject facet, searches, and lists the results
 * ascending by title with the order button reset to ascending.
 */
module AnalisisNumericoPage {
  import opened Wrappers
  import opened Text
  import opened Catalog
  import opened Collation

  /** The subject tag the page pins. */
  const Subject := "Analisis numerico"

  /** A tag string as a list: split on commas, each trimmed, the empty ones dropped. */
  function TagList(text: string): (tags: seq<string>)
    ensures forall k :: 0 <= k < |tags| ==> tags[k] != "" && ',' !in tags[k]
  {
    CleanPieces(text, ',');
    NonEmpty(MapTrim(Split(text, ',')))
  }

  /** The payload's tags as a list; none when the payload has no tags. */
  function CleanTags(etiquetas: Option<string>): (tags: seq<string>)
    ensures forall k :: 0 <= k < |tags| ==> tags[k] != "" && ',' !in tags[k]
  {
    TagList(if Truthy(etiquetas) then Trim(etiquetas.value) else "")
  }

  /** `tags`, with the subject added at the end when it is missing. */
  function WithSubject(tags: seq<string>): (r: seq<string>)
    ensures Subject in r
    ensures forall t :: t in tags ==> t in r
    ensures forall t :: t in r ==> t in tags || t == Subject
  {
    if Subject in tags then tags else tags + [Subject]
  }

  /** Adding the subject keeps every tag non-empty and free of commas. */
  lemma WithSubjectClean(tags: seq<string>)
    requires forall k :: 0 <= k < |tags| ==> tags[k] != "" && ',' !in tags[k]
    ensures forall k :: 0 <= k < |WithSubject(tags)| ==>
              WithSubject(tags)[k] != "" && ',' !in WithSubject(tags)[k]
  {
    var r := WithSubject(tags);
    forall k | 0 <= k < |r| ensures r[k] != "" && ',' !in r[k] {
      assert r[k] in r;
      if r[k] != Subject {
        var j :| 0 <= j < |tags| && tags[j] == r[k];
      }
    }
  }

  /** The list sent: the clean tags, with the subject added when it is missing. */
  function FinalTags(etiquetas: Option<string>): (tags: seq<string>)
    ensures forall k :: 0 <= k < |tags| ==> tags[k] != "" && ',' !in tags[k]
  {
    var clean := CleanTags(etiquetas);
    WithSubjectClean(clean);
    WithSubject(clean)
  }

  /** `handleSearch`'s parameters: the payload with the final tags, and without a set subject. */
  function SearchParams(p: Query): (r: Query)
    ensures r.etiquetas == Some(Join(",", FinalTags(p.etiquetas)))
    ensures r.asignatura == (if Truthy(p.asignatura) then None else p.asignatura)
    ensures r.(etiquetas := p.etiquetas, asignatura := p.asignatura) == p
  {
    p.(etiquetas := Some(Join(",", FinalTags(p.etiquetas))),
       asignatura := if Truthy(p.asignatura) then None else p.asignatura)
  }

  /** The service reads back exactly the final tags from the string sent. */
  lemma SentTagsReadBack(p: Query)
    ensures Split(SearchParams(p).etiquetas.value, ',') == FinalTags(p.etiquetas)
  {
    SplitJoin(FinalTags(p.etiquetas), ',');
  }

  /** With no tags in the payload, the tags sent are exactly the subject. */
  lemma {:induction false} BlankTagsSendSubject(p: Query)
    requires !Truthy(p.etiquetas)
    ensures SearchParams(p).etiquetas == Some(Subject)
  {
    assert Split("", ',') == [""];
    assert MapTrim([""]) == [Trim("")];
    assert NonEmpty([""]) == [];
  }

  /** Tags that already name the subject are sent as cleaned, with nothing added. */
  lemma SubjectNotDuplicated(p: Query)
    requires Subject in CleanTags(p.etiquetas)
    ensures FinalTags(p.etiquetas) == CleanTags(p.etiquetas)
  {
  }

  /**
   * Two tags naming another subject, as a subject bar sends them, gain this page's
   * subject at the end.
   */
  lemma {:induction false} OtherTagsGainSubject(a: string, b: string)
    requires a != "" && b != "" && IsTrimmed(a) && IsTrimmed(b)
    requires ',' !in a && ',' !in b
    requires a != Subject && b != Subject
    ensures FinalTags(Some(a + "," + b)) == [a, b, Subject]
  {
    CleanPair(a, b);
  }

  lemma {:induction false} CleanPair(a: string, b: string)
    requires a != "" && b != "" && IsTrimmed(a) && IsTrimmed(b)
    requires ',' !in a && ',' !in b
    ensures CleanTags(Some(a + "," + b)) == [a, b]
  {
    TrimmedPair(a, b);
    CleanTrimmed(a + "," + b);
    TagListPair(a, b);
  }

  lemma {:induction false} CleanTrimmed(s: string)
    requires s != "" && IsTrimmed(s)
    ensures CleanTags(Some(s)) == TagList(s)
  {
    TrimTrimmed(s);
  }

  lemma {:induction false} TagListPair(a: string, b: string)
    requires a != "" && b != "" && IsTrimmed(a) && IsTrimmed(b)
    requires ',' !in a && ',' !in b
    ensures TagList(a + "," + b) == [a, b]
  {
    SplitPair(a, b);
    TrimTrimmed(a);
    TrimTrimmed(b);
    assert MapTrim([a, b]) == [a, b];
    NonEmptyTwo(a, b);
  }

  /** The page's state; `le` is the title collation. */
  class AnalisisNumerico {
    const le: (string, string) -> bool
    var resultados: seq<Resource>
    var loading: bool
    var lastQuery: string
    var ordenAsc: bool

    /** The listed results are always in the order the button shows. */
    ghost predicate Valid()
      reads this
    {
      TotalPreorder(le) ==> SortedBy(resultados, Titulo, ordenAsc, le)
    }

    constructor (le: (string, string) -> bool)
      ensures Valid()
      ensures this.le == le
      ensures resultados == [] && !loading && lastQuery == "" && ordenAsc
    {
      this.le := le;
      resultados := [];
      loading := false;
      lastQuery := "";
      ordenAsc := true;
    }

    /**
     * `handleSearch`: with a payload, sends `SearchParams`; a success lists the results
     * ascending, records the text and resets the order to ascending, a failure lists none.
     */
    method HandleSearch(payload: Option<Query>, response: Outcome<Option<seq<Resource>>>)
      returns (sent: Option<Query>)
      requires Valid()
      modifies this
      ensures Valid()
      ensures sent == (if payload.Some? then Some(SearchParams(payload.value)) else None)
      ensures payload.None? ==>
                resultados == old(resultados) && lastQuery == old(lastQuery)
                && ordenAsc == old(ordenAsc) && loading == old(loading)
      ensures payload.Some? && response.Success? ==>
                && resultados == SortByKey(Items(response.value), Titulo, true, le)
                && lastQuery == (if Truthy(payload.value.q) then payload.value.q.value else "")
                && ordenAsc
      ensures payload.Some? && response.Failure? ==>
                resultados == [] && lastQuery == old(lastQuery) && ordenAsc == old(ordenAsc)
      ensures payload.Some? ==> !loading
    {
      sent := None;
      if payload.None? {
        return;
      }
      var params := SearchParams(payload.value);
      sent := Some(params);
      ShowResults(response, if Truthy(params.q) then params.q.value else "");
    }

    /**
     * The awaited call's outcome: a success lists the results ascending, records `q`
     * as the last query and resets the order; a failure lists none.
     */
    method ShowResults(response: Outcome<Option<seq<Resource>>>, q: string)
      requires Valid()
      modifies this
      ensures Valid()
      ensures response.Success? ==>
                resultados == SortByKey(Items(response.value), Titulo, true, le) && lastQuery == q && ordenAsc
      ensures response.Failure? ==>
                resultados == [] && lastQuery == old(lastQuery) && ordenAsc == old(ordenAsc)
      ensures !loading
    {
      loading := true;
      if response.Success? {
        var sorted := SortedCopy(Items(response.value), Titulo, true, le);
        if TotalPreorder(le) {
          SortSorted(Items(response.value), Titulo, true, le);
        }
        resultados := sorted;
        lastQuery := q;
        ordenAsc := true;
      } else {
        resultados := [];
      }
      loading := false;
    }

    /** `toggleOrden`: flips the order and re-sorts the listed results in the new direction. */
    method ToggleOrden()
      requires Valid()
      modifies this
      ensures Valid()
      ensures ordenAsc == !old(ordenAsc)
      ensures resultados == SortByKey(old(resultados), Titulo, ordenAsc, le)
      ensures multiset(resultados) == multiset(old(resultados))
      ensures loading == old(loading) && lastQuery == old(lastQuery)
    {
      ordenAsc := !ordenAsc;
      resultados := SortedCopy(resultados, Titulo, ordenAsc, le);
      if TotalPreorder(le) {
        SortSorted(old(resultados), Titulo, ordenAsc, le);
      }
    }
  }
}
