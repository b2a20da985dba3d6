/**
 * The pieces the three filter bars share: the single-select facet toggle, the
 * comma-joined tag list, and the rule that keeps a date range from being inverted.
 */
module Facets {
  import opened Wrappers
  import opened Text
  import opened Catalog

  /** `prev === value ? "" : value`: clicking the active value clears it, any other click selects. */
  function Toggle(prev: string, value: string): (r: string)
    ensures r == "" || r == value
    ensures r == value <==> prev != value || value == ""
  {
    if prev == value then "" else value
  }

  /** Clicking the same value twice, starting from none or from that value, restores the field. */
  lemma ToggleTwice(prev: string, value: string)
    requires prev == "" || prev == value
    ensures Toggle(Toggle(prev, value), value) == prev
  {
  }

  /** `[a, b, …].filter(v => v).join(",")`: the non-empty values, comma-joined, in order. */
  function TagJoin(values: seq<string>): string {
    Join(",", NonEmpty(values))
  }

  /** The tag string is empty exactly when every value is empty. */
  lemma {:induction false} TagJoinEmpty(values: seq<string>)
    ensures TagJoin(values) == "" <==> forall k :: 0 <= k < |values| ==> values[k] == ""
  {
    var ne := NonEmpty(values);
    if ne == [] {
      forall k | 0 <= k < |values| ensures values[k] == "" {
        assert values[k] in values;
      }
    } else {
      forall k | 0 <= k < |ne| ensures ne[k] != "" {
        assert ne[k] in ne;
      }
      JoinNonEmptyParts(ne);
      assert ne[0] in ne;
      var k :| 0 <= k < |values| && values[k] == ne[0];
    }
  }

  /** Joining a non-empty list whose pieces are all non-empty gives a non-empty string. */
  lemma {:induction false} JoinNonEmptyParts(parts: seq<string>)
    requires parts != [] && forall k :: 0 <= k < |parts| ==> parts[k] != ""
    ensures Join(",", parts) != ""
  {
    if |parts| > 1 {
      assert parts[|parts| - 1] in parts;
    }
  }

  /**
   * The start date picker's `onChange`: the new start is stored, and a set end is
   * cleared when a set start is strictly later. Returns the end date to keep.
   */
  function EndAfterStartChosen(fechaFin: Option<Day>, date: Option<Day>): (r: Option<Day>)
    ensures r == None || r == fechaFin
    ensures r == None <==> fechaFin == None || (date.Some? && date.value > fechaFin.value)
  {
    if fechaFin.Some? && date.Some? && date.value > fechaFin.value then None else fechaFin
  }

  /** After choosing a start, a range with both ends set is never inverted. */
  lemma StartNeverAfterEnd(fechaFin: Option<Day>, date: Option<Day>)
    requires date.Some? && EndAfterStartChosen(fechaFin, date).Some?
    ensures date.value <= EndAfterStartChosen(fechaFin, date).value
  {
  }
}
