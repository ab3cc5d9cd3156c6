/** What the medication and vaccination catalog screens share: the optional
    pet-type filter and the stock badge. */
module Catalog {
  import opened Common

  /** The Select's value handler: the "All Pets" entry (value "") clears
      the filter. */
  function FilterChoice(value: string): (filter: Option<string>)
    ensures filter.None? <==> value == ""
    ensures filter.Some? ==> filter.value == value
  {
    if value == "" then None else Some(value)
  }

  /** Whether a filter value is set; like the screen's truthiness test, an
      empty string counts as no filter. */
  predicate IsFiltering(filter: Option<string>)
  {
    filter.Some? && filter.value != ""
  }

  function ForType<T>(forPetTypes: T -> seq<string>, t: string): T -> bool
  {
    x => t in forPetTypes(x)
  }

  /** The catalog's visible items: with a filter `t`, the items whose
      `forPetTypes` contains `t`, in catalog order; without one, all items. */
  function FilterByPetType<T>(items: seq<T>, forPetTypes: T -> seq<string>, filter: Option<string>)
    : (r: seq<T>)
    ensures !IsFiltering(filter) ==> r == items
    ensures IsFiltering(filter) ==> forall i :: 0 <= i < |r| ==> filter.value in forPetTypes(r[i])
    ensures IsFiltering(filter) ==>
      forall i :: 0 <= i < |items| && filter.value in forPetTypes(items[i]) ==> items[i] in r
    ensures IsFiltering(filter) ==> |r| == Count(items, ForType(forPetTypes, filter.value))
    ensures |r| <= |items|
  {
    if IsFiltering(filter) then
      FilterKeepsMatches(items, ForType(forPetTypes, filter.value));
      Filter(items, ForType(forPetTypes, filter.value))
    else items
  }

  /** The visible items keep catalog order. */
  lemma FilteredIsSubsequence<T>(items: seq<T>, forPetTypes: T -> seq<string>, filter: Option<string>)
    ensures IsSubsequence(FilterByPetType(items, forPetTypes, filter), items)
  {
    if IsFiltering(filter) {
      FilterIsSubsequence(items, ForType(forPetTypes, filter.value));
    } else {
      SubsequenceReflexive(items);
    }
  }

  /** A pet type no item lists shows an empty catalog. */
  lemma UnlistedTypeShowsNothing<T>(items: seq<T>, forPetTypes: T -> seq<string>, t: string)
    requires t != ""
    requires forall i :: 0 <= i < |items| ==> t !in forPetTypes(items[i])
    ensures FilterByPetType(items, forPetTypes, Some(t)) == []
  {
    FilterNoneKept(items, ForType(forPetTypes, t));
  }

  /** Filtering looks at each item on its own: the view of two catalogs
      joined is the two views joined. */
  lemma FilteredAppend<T>(a: seq<T>, b: seq<T>, forPetTypes: T -> seq<string>, filter: Option<string>)
    ensures FilterByPetType(a + b, forPetTypes, filter)
      == FilterByPetType(a, forPetTypes, filter) + FilterByPetType(b, forPetTypes, filter)
  {
    if IsFiltering(filter) {
      FilterAppend(a, b, ForType(forPetTypes, filter.value));
    }
  }

  /** Applying the same filter to what it already shows changes nothing. */
  lemma FilteredIdempotent<T>(items: seq<T>, forPetTypes: T -> seq<string>, filter: Option<string>)
    ensures FilterByPetType(FilterByPetType(items, forPetTypes, filter), forPetTypes, filter)
      == FilterByPetType(items, forPetTypes, filter)
  {
    if IsFiltering(filter) {
      FilterAllKept(FilterByPetType(items, forPetTypes, filter), ForType(forPetTypes, filter.value));
    }
  }

  /** The stock badge: "In Stock" exactly when the item is in stock. */
  function StockBadge(inStock: bool): (badge: string)
    ensures badge == "In Stock" <==> inStock
    ensures badge == "Out of Stock" <==> !inStock
  {
    if inStock then "In Stock" else "Out of Stock"
  }
}
