/** The filter panel (src/components/Sidebar.tsx): property-type check
    boxes, the budget slider, and the button that re-emits the current
    filters. Every change emits the whole filter record. */
module Sidebar {
  import opened Inventory
  import opened Seqs

  /** `t => t !== type`. */
  function DifferentFrom(t: string): string -> bool
  {
    x => x != t
  }

  /** `handlePropertyTypeChange`'s new list: a selected type is removed
      (every occurrence), an unselected one is appended at the end. */
  function Toggle(types: seq<string>, t: string): (r: seq<string>)
    ensures t in r <==> t !in types
    ensures forall x :: x != t ==> (x in r <==> x in types)
    ensures t in types ==>
      IsSubsequence(r, types) && forall x :: x != t ==> multiset(r)[x] == multiset(types)[x]
    ensures t !in types ==> r == types + [t]
  {
    if t in types then
      FilterCounts(types, DifferentFrom(t));
      FilterIsSubsequence(types, DifferentFrom(t));
      Filter(types, DifferentFrom(t))
    else types + [t]
  }

  /** Selecting a type and deselecting it again gives back the old list. */
  lemma ToggleTwiceRestores(types: seq<string>, t: string)
    requires t !in types
    ensures Toggle(Toggle(types, t), t) == types
  {
    FilterAppend(types, [t], DifferentFrom(t));
    FilterKeepsAll(types, DifferentFrom(t));
    assert Filter([t], DifferentFrom(t)) == [] by {
      assert [t][1..] == [];
    }
  }

  /** A list built by toggles never holds a type twice. */
  lemma ToggleKeepsNoDuplicates(types: seq<string>, t: string)
    requires NoDuplicates(types)
    ensures NoDuplicates(Toggle(types, t))
  {
    if t in types {
      FilterNoDuplicates(types, DifferentFrom(t));
    }
  }

  class FilterPanel {
    /** The slider's `values`. */
    var values: PriceRange
    /** The checked property types, in the order they were checked. */
    var propertyTypes: seq<string>

    ghost predicate Valid()
      reads this
    {
      NoDuplicates(propertyTypes)
    }

    /** The initial state: nothing checked, the whole budget range. */
    constructor ()
      ensures Valid()
      ensures values == PriceRange(MinPrice, MaxPrice) && propertyTypes == []
    {
      values := PriceRange(MinPrice, MaxPrice);
      propertyTypes := [];
    }

    /** Whether the check box for `t` is ticked. */
    predicate Checked(t: string)
      reads this
    {
      t in propertyTypes
    }

    /** `handlePropertyTypeChange`: toggle `t` and emit the new type list
        with the unchanged price range. */
    method HandlePropertyTypeChange(t: string) returns (emitted: Filters)
      modifies this`propertyTypes
      ensures propertyTypes == Toggle(old(propertyTypes), t)
      ensures Checked(t) <==> !old(Checked(t))
      ensures emitted == Filters(propertyTypes, values)
      ensures old(Valid()) ==> Valid()
    {
      if Valid() {
        ToggleKeepsNoDuplicates(propertyTypes, t);
      }
      propertyTypes := Toggle(propertyTypes, t);
      emitted := Filters(propertyTypes, values);
    }

    /** `handlePriceChange`: replace the range and emit it with the
        unchanged type list. */
    method HandlePriceChange(newValues: PriceRange) returns (emitted: Filters)
      modifies this`values
      ensures values == newValues
      ensures emitted == Filters(propertyTypes, newValues)
    {
      values := newValues;
      emitted := Filters(propertyTypes, values);
    }

    /** The "Find Affordable hotels" button: emit the current state as it is. */
    method Apply() returns (emitted: Filters)
      ensures emitted.propertyTypes == propertyTypes && emitted.priceRange == values
    {
      emitted := Filters(propertyTypes, values);
    }
  }
}
