/**
 * The rules the stall list view applies to the stored stalls: keep the
 * stalls of the selected location (or all of them), order them by rating
 * (highest first, an unrated stall counting as 0) or by name, offer the
 * distinct locations as filter options, and reset both choices.
 */
module StallList {
  import opened Wrappers
  import opened Text
  import opened Types

  datatype SortKey = ByRating | ByName

  /** The view's own state: the sort key, the selected location and whether the filter panel is open. */
  datatype ListView = ListView(sortBy: SortKey, selectedLocation: string, filtersOpen: bool)

  /** The location option that stands for every location. */
  const AllLocations := "all"

  // ---------------------------------------------------------------------
  // Filtering by location

  predicate Keeps(selected: string, s: FoodStall) {
    selected == AllLocations || s.location == selected
  }

  /** `filter(stall => selectedLocation === 'all' || stall.location === selectedLocation)`. */
  function FilterByLocation(stalls: seq<FoodStall>, selected: string): (r: seq<FoodStall>)
    ensures |r| <= |stalls|
    ensures forall k :: 0 <= k < |r| ==> Keeps(selected, r[k])
  {
    if stalls == [] then []
    else
      var last := stalls[|stalls| - 1];
      FilterByLocation(stalls[..|stalls| - 1], selected) + (if Keeps(selected, last) then [last] else [])
  }

  /** The option 'all' keeps every stall, in order. */
  lemma {:induction false} FilterAllKeepsEverything(stalls: seq<FoodStall>)
    ensures FilterByLocation(stalls, AllLocations) == stalls
  {
    if stalls != [] {
      FilterAllKeepsEverything(stalls[..|stalls| - 1]);
      assert stalls == stalls[..|stalls| - 1] + [stalls[|stalls| - 1]];
    }
  }

  /**
   * A specific location keeps exactly the stalls located there, each as
   * often as it is stored, and nothing else.
   */
  lemma {:induction false} FilterCounts(stalls: seq<FoodStall>, selected: string, x: FoodStall)
    ensures multiset(FilterByLocation(stalls, selected))[x] ==
            if Keeps(selected, x) then multiset(stalls)[x] else 0
    ensures x in FilterByLocation(stalls, selected) <==> x in stalls && Keeps(selected, x)
  {
    if stalls != [] {
      var init := stalls[..|stalls| - 1];
      assert stalls == init + [stalls[|stalls| - 1]];
      FilterCounts(init, selected, x);
    }
  }

  // ---------------------------------------------------------------------
  // Sorting

  /** `(b.rating || 0) - (a.rating || 0)`: an unrated stall sorts as if rated 0. */
  function RatingOrZero(s: FoodStall): real {
    s.rating.GetOr(0.0)
  }

  /** The comparator says `a` may come before `b` (it returns a value `<= 0`). */
  predicate Precedes(key: SortKey, a: FoodStall, b: FoodStall) {
    match key
    case ByRating => RatingOrZero(a) >= RatingOrZero(b)
    case ByName => LexLe(a.name, b.name)
  }

  lemma PrecedesTotal(key: SortKey, a: FoodStall, b: FoodStall)
    ensures Precedes(key, a, b) || Precedes(key, b, a)
  {
    if key == ByName {
      LexLeTotal(a.name, b.name);
    }
  }

  lemma PrecedesTransitive(key: SortKey, a: FoodStall, b: FoodStall, c: FoodStall)
    requires Precedes(key, a, b) && Precedes(key, b, c)
    ensures Precedes(key, a, c)
  {
    if key == ByName {
      LexLeTransitive(a.name, b.name, c.name);
    }
  }

  /** Each stall may come before the next one. */
  predicate Sorted(key: SortKey, s: seq<FoodStall>) {
    forall k :: 0 <= k < |s| - 1 ==> Precedes(key, s[k], s[k + 1])
  }

  /**
   * Puts `x` into a sorted sequence after every stall that may precede it,
   * so that stalls the comparator ties keep their order.
   */
  function Insert(key: SortKey, x: FoodStall, s: seq<FoodStall>): (r: seq<FoodStall>)
    requires Sorted(key, s)
    ensures Sorted(key, r)
    ensures multiset(r) == multiset(s) + multiset{x}
    ensures r[0] == x || (s != [] && r[0] == s[0])
  {
    if s == [] then [x]
    else if !Precedes(key, s[0], x) then
      PrecedesTotal(key, x, s[0]);
      [x] + s
    else
      assert s == [s[0]] + s[1..];
      [s[0]] + Insert(key, x, s[1..])
  }

  /** `sort` with the comparator for `key`: a sorted permutation of its input. */
  function Sort(key: SortKey, s: seq<FoodStall>): (r: seq<FoodStall>)
    ensures Sorted(key, r)
    ensures multiset(r) == multiset(s)
  {
    if s == [] then []
    else
      assert s == s[..|s| - 1] + [s[|s| - 1]];
      Insert(key, s[|s| - 1], Sort(key, s[..|s| - 1]))
  }

  /** A sorted sequence is ordered between any two positions, not just neighbours. */
  lemma {:induction false} SortedPairwise(key: SortKey, s: seq<FoodStall>)
    requires Sorted(key, s)
    ensures forall i, j :: 0 <= i < j < |s| ==> Precedes(key, s[i], s[j])
  {
    if |s| > 1 {
      SortedPairwise(key, s[1..]);
      forall j | 1 < j < |s|
        ensures Precedes(key, s[0], s[j])
      {
        assert s[1..][j - 1] == s[j];
        PrecedesTransitive(key, s[0], s[1], s[j]);
      }
      forall i, j | 0 < i < j < |s|
        ensures Precedes(key, s[i], s[j])
      {
        assert s[1..][i - 1] == s[i] && s[1..][j - 1] == s[j];
      }
    }
  }

  // ---------------------------------------------------------------------
  // The list the view shows

  /** `filteredStalls`: the stalls of the selected location, in the selected order. */
  function FilteredStalls(stalls: seq<FoodStall>, view: ListView): seq<FoodStall> {
    Sort(view.sortBy, FilterByLocation(stalls, view.selectedLocation))
  }

  /**
   * The list holds exactly the kept stalls, with their multiplicities, in
   * non-increasing rating order or non-decreasing name order.
   */
  lemma FilteredStallsSpec(stalls: seq<FoodStall>, view: ListView)
    ensures var r := FilteredStalls(stalls, view);
      (forall x :: multiset(r)[x] == if Keeps(view.selectedLocation, x) then multiset(stalls)[x] else 0) &&
      (view.selectedLocation == AllLocations ==> multiset(r) == multiset(stalls)) &&
      (view.sortBy == ByRating ==>
        forall i, j :: 0 <= i < j < |r| ==> RatingOrZero(r[i]) >= RatingOrZero(r[j])) &&
      (view.sortBy == ByName ==>
        forall i, j :: 0 <= i < j < |r| ==> LexLe(r[i].name, r[j].name))
  {
    var r := FilteredStalls(stalls, view);
    forall x
      ensures multiset(r)[x] == if Keeps(view.selectedLocation, x) then multiset(stalls)[x] else 0
    {
      FilterCounts(stalls, view.selectedLocation, x);
    }
    if view.selectedLocation == AllLocations {
      FilterAllKeepsEverything(stalls);
    }
    SortedPairwise(view.sortBy, r);
  }

  // ---------------------------------------------------------------------
  // Location options

  /**
   * `new Set(allStalls.map(stall => stall.location))`: each location once,
   * in the order of its first stall.
   */
  function Locations(stalls: seq<FoodStall>): (r: seq<string>)
    ensures forall i, j :: 0 <= i < j < |r| ==> r[i] != r[j]
    ensures forall l :: l in r <==> exists k :: 0 <= k < |stalls| && stalls[k].location == l
  {
    if stalls == [] then []
    else
      var init := stalls[..|stalls| - 1];
      var l := stalls[|stalls| - 1].location;
      var d := Locations(init);
      assert forall k :: 0 <= k < |init| ==> init[k] == stalls[k];
      if l in d then d else d + [l]
  }

  // ---------------------------------------------------------------------
  // Resetting

  /** `resetFilters`: back to rating order and every location; the panel stays as it is. */
  function ResetFilters(view: ListView): (r: ListView)
    ensures r.sortBy == ByRating && r.selectedLocation == AllLocations
    ensures r.filtersOpen == view.filtersOpen
  {
    view.(sortBy := ByRating, selectedLocation := AllLocations)
  }

  /** After a reset the view lists every stall, highest rated first. */
  lemma ResetListsEveryStall(stalls: seq<FoodStall>, view: ListView)
    ensures var r := FilteredStalls(stalls, ResetFilters(view));
      multiset(r) == multiset(stalls) &&
      forall i, j :: 0 <= i < j < |r| ==> RatingOrZero(r[i]) >= RatingOrZero(r[j])
  {
    FilteredStallsSpec(stalls, ResetFilters(view));
  }
}
