/** The car listing of pages/AvailableCarsPage.js: the car-type checkboxes,
    the filter-and-sort effect, pagination, and the "Book Now" button that
    opens the booking modal with the car's ongoing bookings. */
module CarListing {
  import opened Js
  import opened Seqs
  import opened BookingModal

  /** A car as the page lists it; `car_type` is undefined (None) when the row
      has no such column. */
  datatype ListedCar = ListedCar(id: int, carType: Option<string>, pricePerDay: int)

  /** The "Sort by" select. */
  datatype SortOrder = MostViewed | LowestPrice | HighestPrice

  const AllTypes: string := "All"

  predicate Differs(t: string, item: string)
  {
    item != t
  }

  /** handleCheckboxChange: a selected type is removed, any other is
      appended. */
  function Toggle(selected: seq<string>, t: string): seq<string>
  {
    if t in selected then Filter(selected, item => Differs(t, item)) else selected + [t]
  }

  /** Toggling flips the membership of the toggled type and of no other. */
  lemma ToggleFlips(selected: seq<string>, t: string)
    ensures t in Toggle(selected, t) <==> t !in selected
    ensures forall u :: u != t ==> (u in Toggle(selected, t) <==> u in selected)
  {
    FilterMembership(selected, item => Differs(t, item));
  }

  predicate TypeSelected(selected: seq<string>, car: ListedCar)
  {
    car.carType.Some? && car.carType.value in selected
  }

  /** The type filter: nothing is filtered out when "All" is selected or no
      type is; otherwise the cars whose type is selected, in list order. */
  function FilterByType(cars: seq<ListedCar>, selected: seq<string>): seq<ListedCar>
  {
    if AllTypes in selected || |selected| == 0 then cars
    else Filter(cars, car => TypeSelected(selected, car))
  }

  /** A car survives the filter exactly when "All" or nothing is selected, or
      its own type is selected; in particular a car without a type is hidden
      by any selection that is not "All". */
  lemma FilterByTypeKeeps(cars: seq<ListedCar>, selected: seq<string>)
    ensures forall car :: car in FilterByType(cars, selected) <==>
              car in cars && (AllTypes in selected || |selected| == 0 || TypeSelected(selected, car))
    ensures AllTypes !in selected && |selected| > 0 ==>
              forall car: ListedCar :: car.carType.None? ==> car !in FilterByType(cars, selected)
  {
    FilterMembership(cars, car => TypeSelected(selected, car));
  }

  /** The price in the chosen direction: ascending order on it is the
      chosen price order. */
  function Key(car: ListedCar, ascending: bool): int
  {
    if ascending then car.pricePerDay else -car.pricePerDay
  }

  /** `a` may come before `b` in the chosen price order. */
  predicate InOrder(a: ListedCar, b: ListedCar, ascending: bool)
  {
    Key(a, ascending) <= Key(b, ascending)
  }

  /** Non-decreasing price when ascending, non-increasing otherwise. */
  predicate Ordered(s: seq<ListedCar>, ascending: bool)
  {
    forall i, j :: 0 <= i < j < |s| ==> InOrder(s[i], s[j], ascending)
  }

  /** The chosen order read back as prices. */
  lemma OrderedMeansByPrice(s: seq<ListedCar>, ascending: bool)
    requires Ordered(s, ascending)
    ensures ascending ==> forall i, j :: 0 <= i < j < |s| ==> s[i].pricePerDay <= s[j].pricePerDay
    ensures !ascending ==> forall i, j :: 0 <= i < j < |s| ==> s[i].pricePerDay >= s[j].pricePerDay
  {
    assert forall i, j :: 0 <= i < j < |s| ==> InOrder(s[i], s[j], ascending);
  }

  /** `updatedCars.sort(...)` by price: sorts the array in place, keeping the
      same cars. */
  method SortByPrice(a: array<ListedCar>, ascending: bool)
    modifies a
    ensures Ordered(a[..], ascending)
    ensures multiset(a[..]) == multiset(old(a[..]))
  {
    var i := 0;
    while i < a.Length
      invariant 0 <= i <= a.Length
      invariant forall k, l :: 0 <= k < l < i ==> InOrder(a[k], a[l], ascending)
      invariant multiset(a[..]) == multiset(old(a[..]))
    {
      InsertAt(a, i, ascending);
      i := i + 1;
    }
  }

  /** One pass of the sort: the car at `i` moves left past every car it must
      precede, so the first i + 1 cars are in order. */
  method InsertAt(a: array<ListedCar>, i: int, ascending: bool)
    requires 0 <= i < a.Length
    requires forall k, l :: 0 <= k < l < i ==> InOrder(a[k], a[l], ascending)
    modifies a
    ensures forall k, l :: 0 <= k < l <= i ==> InOrder(a[k], a[l], ascending)
    ensures multiset(a[..]) == multiset(old(a[..]))
  {
    var j := i;
    while j > 0 && Key(a[j], ascending) < Key(a[j - 1], ascending)
      invariant 0 <= j <= i
      invariant forall k, l :: 0 <= k < l <= i && k != j && l != j ==> InOrder(a[k], a[l], ascending)
      invariant forall l :: j < l <= i ==> InOrder(a[j], a[l], ascending)
      invariant multiset(a[..]) == multiset(old(a[..]))
    {
      SwapWithPrevious(a, j);
      j := j - 1;
    }
  }

  /** Exchanges the cars at j - 1 and j. */
  method SwapWithPrevious(a: array<ListedCar>, j: int)
    requires 0 < j < a.Length
    modifies a
    ensures a[j - 1] == old(a[j]) && a[j] == old(a[j - 1])
    ensures forall k :: 0 <= k < a.Length && k != j - 1 && k != j ==> a[k] == old(a[k])
    ensures multiset(a[..]) == multiset(old(a[..]))
  {
    a[j], a[j - 1] := a[j - 1], a[j];
  }

  /** Math.ceil(n / perPage): the fewest pages of `perPage` items holding
      `n` items. */
  function TotalPages(n: nat, perPage: int): (pages: nat)
    requires perPage > 0
    ensures pages * perPage >= n
    ensures (pages - 1) * perPage < n || (n == 0 && pages == 0)
  {
    (n + perPage - 1) / perPage
  }

  function Min(a: int, b: int): int
  {
    if a < b then a else b
  }

  /** `filteredCars.slice((page - 1) * perPage, page * perPage)`: slice
      clamps both bounds to the length of the list. */
  function PageSlice(s: seq<ListedCar>, page: int, perPage: int): (r: seq<ListedCar>)
    requires page >= 1 && perPage > 0
    ensures |r| <= perPage && (|r| == 0 || (page - 1) * perPage + |r| <= |s|)
    ensures forall k :: 0 <= k < |r| ==> r[k] == s[(page - 1) * perPage + k]
    ensures page * perPage <= |s| ==> |r| == perPage
    ensures |r| == 0 <==> (page - 1) * perPage >= |s|
  {
    MulStep(page, perPage);
    var start := (page - 1) * perPage;
    var first := Min(start, |s|);
    var last := Min(start + perPage, |s|);
    s[first..last]
  }

  /** The start of page n + 1 is the end of page n, and no page starts
      before the list. */
  lemma MulStep(n: int, perPage: int)
    requires perPage > 0
    ensures n * perPage == (n - 1) * perPage + perPage
    ensures n >= 1 ==> (n - 1) * perPage >= 0
  {
  }

  /** Pages 1 to n one after the other. */
  function FirstPages(s: seq<ListedCar>, perPage: int, n: nat): seq<ListedCar>
    requires perPage > 0
  {
    if n == 0 then [] else FirstPages(s, perPage, n - 1) + PageSlice(s, n, perPage)
  }

  /** The first n pages are a prefix of the list, so pages 1 to
      `TotalPages` show every car exactly once, in order. */
  lemma {:induction false} PagesCoverList(s: seq<ListedCar>, perPage: int, n: nat)
    requires perPage > 0
    ensures FirstPages(s, perPage, n) == s[..Min(n * perPage, |s|)]
    ensures n == TotalPages(|s|, perPage) ==> FirstPages(s, perPage, n) == s
  {
    if n > 0 {
      PagesCoverList(s, perPage, n - 1);
      var a := Min((n - 1) * perPage, |s|);
      var b := Min(n * perPage, |s|);
      assert a <= b by {
        MulStep(n, perPage);
      }
      assert PageSlice(s, n, perPage) == s[a..b];
      assert s[..a] + s[a..b] == s[..b];
    }
  }

  class ListingPage {
    var cars: seq<ListedCar>
    var selectedTypes: seq<string>
    var sortBy: SortOrder
    var perPage: int
    var filteredCars: seq<ListedCar>
    var currentPage: int
    var allBookings: seq<ListedBooking>

    ghost predicate Valid()
      reads this
    {
      perPage > 0 && currentPage >= 1
    }

    function Pages(): nat
      reads this
      requires Valid()
    {
      TotalPages(|filteredCars|, perPage)
    }

    /** The cars shown on the current page. */
    function CurrentCars(): (r: seq<ListedCar>)
      reads this
      requires Valid()
      ensures |r| <= perPage && (|r| == 0 || (currentPage - 1) * perPage + |r| <= |filteredCars|)
      ensures forall k :: 0 <= k < |r| ==> r[k] == filteredCars[(currentPage - 1) * perPage + k]
    {
      PageSlice(filteredCars, currentPage, perPage)
    }

    /** Initial state: nothing loaded, no type selected, "Most viewed", 20
        per page, page 1. */
    constructor ()
      ensures Valid()
      ensures cars == [] && filteredCars == [] && selectedTypes == [] && allBookings == []
      ensures sortBy == MostViewed && perPage == 20 && currentPage == 1
    {
      cars, filteredCars, selectedTypes, allBookings := [], [], [], [];
      sortBy, perPage, currentPage := MostViewed, 20, 1;
    }

    /** The initial fetch: cars and bookings are only stored when both
        requests succeed. */
    method Load(bothSucceeded: bool, fetchedCars: seq<ListedCar>, fetchedBookings: seq<ListedBooking>)
      requires Valid()
      modifies this
      ensures Valid()
      ensures bothSucceeded ==> cars == fetchedCars && filteredCars == fetchedCars && allBookings == fetchedBookings
      ensures !bothSucceeded ==> cars == old(cars) && filteredCars == old(filteredCars) && allBookings == old(allBookings)
      ensures selectedTypes == old(selectedTypes) && sortBy == old(sortBy) && perPage == old(perPage)
      ensures currentPage == old(currentPage)
    {
      if bothSucceeded {
        cars, filteredCars, allBookings := fetchedCars, fetchedCars, fetchedBookings;
      }
    }

    /** A car-type checkbox changes. */
    method ToggleType(t: string)
      requires Valid()
      modifies this`selectedTypes
      ensures Valid()
      ensures selectedTypes == Toggle(old(selectedTypes), t)
    {
      selectedTypes := Toggle(selectedTypes, t);
    }

    /** The "Sort by" select changes. */
    method ChangeSort(order: SortOrder)
      requires Valid()
      modifies this`sortBy
      ensures Valid()
      ensures sortBy == order
    {
      sortBy := order;
    }

    /** The filter-and-sort effect: the filtered cars are the cars of the
        selected types, sorted by price when a price order is chosen and in
        list order otherwise; the page goes back to 1. */
    method ApplyFilterAndSort()
      requires Valid()
      modifies this`filteredCars, this`currentPage
      ensures Valid()
      ensures currentPage == 1
      ensures multiset(filteredCars) == multiset(FilterByType(cars, selectedTypes))
      ensures sortBy == LowestPrice ==> Ordered(filteredCars, true)
      ensures sortBy == HighestPrice ==> Ordered(filteredCars, false)
      ensures sortBy == MostViewed ==> filteredCars == FilterByType(cars, selectedTypes)
    {
      var updated := FilterByType(cars, selectedTypes);
      if sortBy != MostViewed {
        var a := new ListedCar[|updated|](k requires 0 <= k < |updated| => updated[k]);
        assert a[..] == updated;
        SortByPrice(a, sortBy == LowestPrice);
        updated := a[..];
      }
      filteredCars := updated;
      currentPage := 1;
    }

    /** The effect that sends a page beyond the last one back to page 1. */
    method ResetIfBeyond()
      requires Valid()
      modifies this`currentPage
      ensures Valid()
      ensures old(currentPage) > Pages() ==> currentPage == 1
      ensures old(currentPage) <= Pages() ==> currentPage == old(currentPage)
    {
      if currentPage > Pages() {
        currentPage := 1;
      }
    }

    /** A page-number button: one exists for each page from 1 to the last. */
    method GoToPage(page: int)
      requires Valid() && 1 <= page <= Pages()
      modifies this`currentPage
      ensures Valid()
      ensures currentPage == page
    {
      currentPage := page;
    }

    /** "Next": moves forward only while not on the last page, so a page in
        range stays in range. */
    method NextPage()
      requires Valid()
      modifies this`currentPage
      ensures Valid()
      ensures old(currentPage) < Pages() ==> currentPage == old(currentPage) + 1
      ensures old(currentPage) >= Pages() ==> currentPage == old(currentPage)
      ensures old(currentPage) <= Pages() ==> 1 <= currentPage <= Pages()
    {
      if currentPage < Pages() {
        currentPage := currentPage + 1;
      }
    }

    /** "Previous": moves back only while past page 1. */
    method PrevPage()
      requires Valid()
      modifies this`currentPage
      ensures Valid()
      ensures old(currentPage) > 1 ==> currentPage == old(currentPage) - 1
      ensures old(currentPage) == 1 ==> currentPage == 1
      ensures old(currentPage) <= Pages() ==> 1 <= currentPage <= Pages()
    {
      if currentPage > 1 {
        currentPage := currentPage - 1;
      }
    }

    /** The "Show" select (10, 20 or 30): new page size, back to page 1. */
    method ChangeShowCount(count: int)
      requires Valid() && count > 0
      modifies this`perPage, this`currentPage
      ensures Valid()
      ensures perPage == count && currentPage == 1
    {
      perPage := count;
      currentPage := 1;
    }

    /** "Book Now": opens the booking modal for the car with only its ongoing
        bookings as booked ranges. */
    method BookNow(car: ListedCar) returns (modal: Modal)
      requires Valid()
      ensures fresh(modal) && modal.Valid()
      ensures modal.carId == car.id && modal.pricePerDay == car.pricePerDay
      ensures modal.bookedRanges == OngoingFor(allBookings, car.id)
      ensures modal.startDate.None? && modal.endDate.None? && modal.totalPrice == 0 && modal.error.None?
    {
      modal := new Modal(car.id, car.pricePerDay, OngoingFor(allBookings, car.id));
    }
  }
}
