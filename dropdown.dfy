/**
 * `MultiSelectDropdown` (src/components/common/dropdown.tsx): a text box
 * that filters a vocabulary, a menu of matching items that toggle into the
 * selection, an entry that adds the typed text when nothing matches, and a
 * row of chips, sorted, each with a close button.
 */
module Dropdown {
  import opened Text
  import opened TagList

  /** Case-insensitive match of an item against the typed query. */
  predicate Matches(item: string, query: string) {
    Contains(ToLower(item), ToLower(query))
  }

  /** `items.filter(item => item.toLowerCase().includes(query.toLowerCase()))`. */
  function FilterItems(items: seq<string>, query: string): (r: seq<string>)
    ensures |r| <= |items|
    ensures forall x :: x in r ==> x in items && Matches(x, query)
  {
    if items == [] then []
    else if Matches(items[0], query) then [items[0]] + FilterItems(items[1..], query)
    else FilterItems(items[1..], query)
  }

  /** The filter keeps exactly the matching items... */
  lemma {:induction false} FilterMembership(items: seq<string>, query: string, x: string)
    ensures x in FilterItems(items, query) <==> x in items && Matches(x, query)
  {
    if items != [] {
      FilterMembership(items[1..], query, x);
      assert items == [items[0]] + items[1..];
    }
  }

  /** ...in their original order: it distributes over concatenation. */
  lemma {:induction false} FilterConcat(a: seq<string>, b: seq<string>, query: string)
    ensures FilterItems(a + b, query) == FilterItems(a, query) + FilterItems(b, query)
  {
    if a == [] {
      assert a + b == b;
    } else {
      assert (a + b)[1..] == a[1..] + b;
      FilterConcat(a[1..], b, query);
    }
  }

  /** An empty query lists the whole vocabulary. */
  lemma {:induction false} FilterEmptyQuery(items: seq<string>)
    ensures FilterItems(items, "") == items
  {
    if items != [] {
      ContainsEmpty(ToLower(items[0]));
      FilterEmptyQuery(items[1..]);
    }
  }

  /** The component's state. `items` is a prop; `selected` is the parent's
      state, replaced through `setSelected`; `query`, `open` and
      `filteredItems` are the component's own state cells. */
  class MultiSelectDropdown {
    const items: seq<string>
    var selected: seq<string>
    var query: string
    var open: bool
    var filteredItems: seq<string>

    /** The menu only ever lists vocabulary items. */
    ghost predicate Valid()
      reads this
    {
      forall x :: x in filteredItems ==> x in items
    }

    /** First render: empty query, closed menu, the whole vocabulary listed. */
    constructor (items: seq<string>, selected: seq<string>)
      ensures Valid()
      ensures this.items == items && this.selected == selected
      ensures query == "" && !open && filteredItems == items
    {
      this.items := items;
      this.selected := selected;
      query := "";
      open := false;
      filteredItems := items;
    }

    /** `handleSelectItem`: toggle the item; restore the full list if the
        menu was empty; clear the query. */
    method HandleSelectItem(item: string)
      requires Valid()
      modifies this
      ensures Valid()
      ensures selected == Toggle(old(selected), item)
      ensures filteredItems == if old(filteredItems) == [] then items else old(filteredItems)
      ensures query == "" && open == old(open)
      ensures NoDup(old(selected)) ==> NoDup(selected)
    {
      if NoDup(selected) {
        ToggleKeepsNoDup(selected, item);
      }
      selected := Toggle(selected, item);
      if |filteredItems| == 0 {
        filteredItems := items;
      }
      query := "";
    }

    /** Checking the `k`-th entry of the menu (its `onCheckedChange`): the
        toggled item is always a vocabulary item, and the list stays as it
        was, since it was not empty. */
    method CheckListedItem(k: nat) returns (item: string)
      requires Valid() && k < |filteredItems|
      modifies this
      ensures Valid()
      ensures item == old(filteredItems)[k] && item in items
      ensures selected == Toggle(old(selected), item)
      ensures query == "" && open == old(open) && filteredItems == old(filteredItems)
    {
      item := filteredItems[k];
      HandleSelectItem(item);
    }

    /** `handleFilter`: open the menu and list the matching items. */
    method HandleFilter(q: string)
      requires Valid()
      modifies this
      ensures Valid()
      ensures open && filteredItems == FilterItems(items, q)
      ensures selected == old(selected) && query == old(query)
    {
      open := true;
      filteredItems := FilterItems(items, q);
    }

    /** The text box's `onChange`: store the typed text and filter by it
        (the `setOpen(open)` it also does changes nothing). */
    method OnQueryChange(value: string)
      requires Valid()
      modifies this
      ensures Valid()
      ensures query == value && open && filteredItems == FilterItems(items, value)
      ensures selected == old(selected)
    {
      query := value;
      HandleFilter(value);
    }

    /** The menu's `onOpenChange`; the deferred re-open after focusing only
        repeats an opening. */
    method OnOpenChange(isOpen: bool)
      requires Valid()
      modifies this
      ensures Valid()
      ensures open == isOpen
      ensures selected == old(selected) && query == old(query) && filteredItems == old(filteredItems)
    {
      open := isOpen;
    }

    /** The entry offered when nothing matches: toggle the typed text into
        the selection and close the menu. */
    method SelectTypedQuery()
      requires Valid() && filteredItems == []
      modifies this
      ensures Valid()
      ensures selected == Toggle(old(selected), old(query))
      ensures query == "" && !open && filteredItems == items
      ensures NoDup(old(selected)) ==> NoDup(selected)
    {
      HandleSelectItem(query);
      open := false;
    }

    /** A chip's close button: drop that tag, keep everything else. */
    method RemoveChip(item: string)
      requires Valid()
      modifies this
      ensures Valid()
      ensures selected == RemoveAll(old(selected), item)
      ensures NoDup(old(selected)) ==> NoDup(selected)
      ensures query == old(query) && open == old(open) && filteredItems == old(filteredItems)
    {
      if NoDup(selected) {
        RemoveAllKeepsNoDup(selected, item);
      }
      selected := RemoveAll(selected, item);
    }

    /** Rendering the chips sorts `selected` in place and lists it. */
    method DisplayChips() returns (chips: seq<string>)
      requires Valid()
      modifies this
      ensures Valid()
      ensures chips == selected
      ensures Sorted(chips) && multiset(chips) == multiset(old(selected))
      ensures query == old(query) && open == old(open) && filteredItems == old(filteredItems)
    {
      chips := SortStrings(selected);
      selected := chips;
    }
  }
}
