/** The nearby-services screen: a list of places filtered by category, marker slots on a
    map, and the selection, category and navigation-mode state. */
module Nearby {
  import opened Wrappers
  import Seqs

  datatype Category = Station | Hospital | Nursing | Nurse

  /** A place on the list; the display-only fields (distance, rating, address, tags,
      image, price) are not part of the model. */
  datatype Location = Location(id: string, name: string, category: Category, isOpen: bool)

  /** The places of the active category, in the order of the catalogue. */
  function FilteredData(items: seq<Location>, active: Category): (r: seq<Location>)
    ensures forall x | x in r :: x.category == active
    ensures forall x | x in items ::
      multiset(r)[x] == if x.category == active then multiset(items)[x] else 0
    ensures Seqs.IsSubsequence(r, items)
  {
    Seqs.Filter(items, (x: Location) => x.category == active)
  }

  /** How many places of the catalogue are in category `c`. */
  function CountIn(items: seq<Location>, c: Category): nat {
    |FilteredData(items, c)|
  }

  /** The four category tabs split the catalogue: every place shows under exactly one. */
  lemma {:induction false} CategoriesPartition(items: seq<Location>)
    ensures CountIn(items, Station) + CountIn(items, Hospital) +
            CountIn(items, Nursing) + CountIn(items, Nurse) == |items|
  {
    if items != [] {
      var x, rest := items[0], items[1..];
      assert items == [x] + rest;
      forall c: Category
        ensures CountIn(items, c) == CountIn(rest, c) + (if x.category == c then 1 else 0)
      {
        Seqs.FilterCons(x, rest, (y: Location) => y.category == c);
      }
      CategoriesPartition(rest);
    }
  }

  /** A marker's place on the map, as percentages from the top and the left. */
  datatype Position = Position(top: string, left: string)

  const Positions: seq<Position> := [
    Position("35%", "45%"),
    Position("55%", "70%"),
    Position("45%", "25%"),
    Position("65%", "50%"),
    Position("25%", "60%"),
    Position("75%", "30%")
  ]

  /** The slot of the `index`-th marker: the six slots are used in turn. */
  function GetPosition(index: nat): (p: Position)
    ensures p in Positions
  {
    Positions[index % |Positions|]
  }

  /** Every sixth marker reuses the same slot. */
  lemma GetPositionPeriodic(index: nat)
    ensures GetPosition(index + 6) == GetPosition(index)
  {
  }

  /** Two markers share a slot exactly when their indices agree modulo six; in particular
      the first six markers all get different slots. */
  lemma GetPositionSameIff(i: nat, j: nat)
    ensures GetPosition(i) == GetPosition(j) <==> i % 6 == j % 6
  {
    var a, b := i % 6, j % 6;
    assert GetPosition(i).top[0] == Positions[a].top[0];
    assert GetPosition(j).top[0] == Positions[b].top[0];
    assert forall k | 0 <= k < 6 :: Positions[k].top[0] == ['3', '5', '4', '6', '2', '7'][k];
  }

  class NearbyView {
    /** The catalogue; the screen never changes it. */
    const items: seq<Location>
    var activeCategory: Category
    var selectedId: Option<string>
    var isNavMode: bool

    /** The selection, when there is one, is a place currently on the list. */
    ghost predicate Valid()
      reads this
    {
      selectedId.Some? ==>
        exists x | x in FilteredData(items, activeCategory) :: x.id == selectedId.value
    }

    /** The screen opens on the stations, with nothing selected and navigation mode off. */
    constructor (items: seq<Location>)
      ensures Valid()
      ensures this.items == items
      ensures activeCategory == Station && selectedId == None && !isNavMode
    {
      this.items := items;
      activeCategory := Station;
      selectedId := None;
      isNavMode := false;
    }

    /** A category tab: switch to it and drop the selection. */
    method SelectCategory(c: Category)
      modifies this
      ensures Valid()
      ensures activeCategory == c && selectedId == None && isNavMode == old(isNavMode)
    {
      activeCategory := c;
      selectedId := None;
    }

    /** A click on the map background drops the selection. */
    method ClickMap()
      modifies this
      ensures Valid()
      ensures selectedId == None
      ensures activeCategory == old(activeCategory) && isNavMode == old(isNavMode)
    {
      selectedId := None;
    }

    /** A click on a marker or on a list card of a shown place toggles its selection:
        clicking the selected place deselects it, any other place becomes the selection. */
    method ClickItem(item: Location)
      requires Valid()
      requires item in FilteredData(items, activeCategory)
      modifies this
      ensures Valid()
      ensures selectedId == if old(selectedId) == Some(item.id) then None else Some(item.id)
      ensures activeCategory == old(activeCategory) && isNavMode == old(isNavMode)
    {
      selectedId := if selectedId == Some(item.id) then None else Some(item.id);
    }

    /** The navigation button flips navigation mode and nothing else. */
    method ToggleNavMode()
      requires Valid()
      modifies this
      ensures Valid()
      ensures isNavMode == !old(isNavMode)
      ensures activeCategory == old(activeCategory) && selectedId == old(selectedId)
    {
      isNavMode := !isNavMode;
    }
  }

  /** Pressing the navigation button twice restores the mode it started in. */
  method ToggleNavModeTwice(view: NearbyView)
    requires view.Valid()
    modifies view
    ensures view.Valid()
    ensures view.isNavMode == old(view.isNavMode)
    ensures view.activeCategory == old(view.activeCategory)
    ensures view.selectedId == old(view.selectedId)
  {
    view.ToggleNavMode();
    view.ToggleNavMode();
  }
}
