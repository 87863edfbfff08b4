/**
 * The search box and filter panel (Frontend/src/components/books/SearchAndFilter.tsx).
 *
 * The panel keeps the typed query and the filter criteria, and reports each
 * change to its parent through `onSearch` and `onFilter`; the class records
 * every value handed to those callbacks, in order.
 */
module SearchAndFilter {
  import opened Wrappers
  import opened JsText

  /** `yearRange`: each bound is absent or a number (NaN when `parseInt` found no digits). */
  datatype YearRange = YearRange(min: Option<Num>, max: Option<Num>)

  /** `FilterOptions`. */
  datatype FilterOptions = FilterOptions(genre: Option<string>, yearRange: Option<YearRange>)

  /** `{}`. */
  const NoFilters := FilterOptions(None, None)

  /**
   * A `Partial<FilterOptions>`: for each key, whether the object has it and,
   * if so, its value. A key present with the value `undefined` is
   * `Some(None)`; spreading it still overwrites.
   */
  datatype FilterUpdate = FilterUpdate(genre: Option<Option<string>>, yearRange: Option<Option<YearRange>>)

  /** `{ ...filters, ...update }`: each key the update has overwrites, the others are kept. */
  function Merge(filters: FilterOptions, update: FilterUpdate): (r: FilterOptions)
    ensures update.genre.Some? ==> r.genre == update.genre.value
    ensures update.genre.None? ==> r.genre == filters.genre
    ensures update.yearRange.Some? ==> r.yearRange == update.yearRange.value
    ensures update.yearRange.None? ==> r.yearRange == filters.yearRange
  {
    FilterOptions(
      if update.genre.Some? then update.genre.value else filters.genre,
      if update.yearRange.Some? then update.yearRange.value else filters.yearRange)
  }

  /** Two updates merged one after the other: the later one's keys win. */
  function Then(first: FilterUpdate, second: FilterUpdate): FilterUpdate {
    FilterUpdate(
      if second.genre.Some? then second.genre else first.genre,
      if second.yearRange.Some? then second.yearRange else first.yearRange)
  }

  /** Merging is associative in the updates, and merging the same update twice is merging it once. */
  lemma MergeComposes(filters: FilterOptions, first: FilterUpdate, second: FilterUpdate)
    ensures Merge(Merge(filters, first), second) == Merge(filters, Then(first, second))
    ensures Merge(Merge(filters, first), first) == Merge(filters, first)
  {
  }

  /** An update with no keys leaves the criteria as they were. */
  lemma EmptyUpdateKeeps(filters: FilterOptions)
    ensures Merge(filters, FilterUpdate(None, None)) == filters
  {
  }

  /** The genre select: choosing `''` ("All Genres") stores `undefined`. */
  function GenreUpdate(value: string): (u: FilterUpdate)
    ensures u.yearRange == None && u.genre.Some?
    ensures u.genre.value == None <==> value == ""
    ensures u.genre.value.Some? ==> u.genre.value.value == value
  {
    FilterUpdate(Some(if value == "" then None else Some(value)), None)
  }

  /** A year input's text: blank is `undefined`, anything else goes through `parseInt`. */
  function YearInput(text: string): (bound: Option<Num>)
    ensures bound == None <==> text == ""
    ensures bound.Some? ==> bound.value == ParseInt(text, Auto)
  {
    if text != "" then Some(ParseInt(text, Auto)) else None
  }

  /** `{ ...filters.yearRange }`: the current range, or no bounds when there is none. */
  function CurrentRange(filters: FilterOptions): YearRange {
    filters.yearRange.GetOr(YearRange(None, None))
  }

  /** The "From Year" input: sets the lower bound and keeps the upper one. */
  function MinYearUpdate(filters: FilterOptions, text: string): FilterUpdate {
    FilterUpdate(None, Some(Some(CurrentRange(filters).(min := YearInput(text)))))
  }

  /** The "To Year" input: sets the upper bound and keeps the lower one. */
  function MaxYearUpdate(filters: FilterOptions, text: string): FilterUpdate {
    FilterUpdate(None, Some(Some(CurrentRange(filters).(max := YearInput(text)))))
  }

  /** A year input leaves the genre and the other bound alone. */
  lemma YearInputsKeepTheRest(filters: FilterOptions, text: string)
    ensures var r := Merge(filters, MinYearUpdate(filters, text));
      r.genre == filters.genre && r.yearRange.Some? &&
      r.yearRange.value.min == YearInput(text) && r.yearRange.value.max == CurrentRange(filters).max
    ensures var r := Merge(filters, MaxYearUpdate(filters, text));
      r.genre == filters.genre && r.yearRange.Some? &&
      r.yearRange.value.max == YearInput(text) && r.yearRange.value.min == CurrentRange(filters).min
  {
  }

  /** The input displays a truthy bound as its numeral; typing that numeral back yields the same bound. */
  lemma YearInputRoundTrip(n: int)
    ensures YearInput(IntToString(n)) == Some(Int(n))
  {
    ParseIntOfIntToString(n, Auto);
  }

  /** JavaScript truthiness of an optional string: present and non-empty. */
  predicate TextTruthy(s: Option<string>) {
    s.Some? && s.value != ""
  }

  /** JavaScript truthiness of an optional number: present, not NaN and not 0. */
  predicate BoundTruthy(n: Option<Num>) {
    n.Some? && NumTruthy(n.value)
  }

  /** `searchQuery || filters.genre || filters.yearRange?.min || filters.yearRange?.max`, as a condition. */
  predicate HasActiveFilters(query: string, filters: FilterOptions) {
    query != "" || TextTruthy(filters.genre) ||
    (filters.yearRange.Some? && (BoundTruthy(filters.yearRange.value.min) || BoundTruthy(filters.yearRange.value.max)))
  }

  /** A bound of 0, a NaN bound, an empty genre and an empty query are all inactive. */
  lemma FalsyCriteriaInactive(g: Option<string>, min: Option<Num>, max: Option<Num>)
    requires g == None || g == Some("")
    requires min == None || min == Some(NaN) || min == Some(Int(0))
    requires max == None || max == Some(NaN) || max == Some(Int(0))
    ensures !HasActiveFilters("", FilterOptions(g, Some(YearRange(min, max))))
    ensures !HasActiveFilters("", NoFilters)
  {
  }

  /** The results counter. */
  function CounterText(filteredCount: nat, totalBooks: nat): string {
    if filteredCount == totalBooks then "Showing all " + IntToString(totalBooks) + " books"
    else "Showing " + IntToString(filteredCount) + " of " + IntToString(totalBooks) + " books"
  }

  /** The counter says "all" exactly when nothing is hidden. */
  lemma CounterSaysAllIffNothingHidden(filteredCount: nat, totalBooks: nat)
    ensures var t := CounterText(filteredCount, totalBooks);
      |t| >= 12 && (t[..12] == "Showing all " <==> filteredCount == totalBooks)
  {
    var t := CounterText(filteredCount, totalBooks);
    if filteredCount != totalBooks {
      var digits := NatToString(filteredCount);
      assert t[8] == digits[0];
      assert "Showing all "[8] == 'a';
    }
  }

  /** With nothing hidden, the total follows "Showing all " and reads back as its number. */
  lemma CounterAllShowsTotal(totalBooks: nat)
    ensures var t := CounterText(totalBooks, totalBooks);
      var total := IntToString(totalBooks);
      |t| >= 12 + |total| && ParseInt(t[12..12 + |total|], Decimal) == Int(totalBooks)
  {
    var t := CounterText(totalBooks, totalBooks);
    var total := IntToString(totalBooks);
    assert t == "Showing all " + total + " books";
    assert t[12..12 + |total|] == total;
    ParseIntOfIntToString(totalBooks, Decimal);
  }

  /**
   * With some books hidden, the shown count follows "Showing " and the total
   * follows " of "; each reads back as its number.
   */
  lemma CounterPartShowsBoth(filteredCount: nat, totalBooks: nat)
    requires filteredCount != totalBooks
    ensures var t := CounterText(filteredCount, totalBooks);
      var shown := IntToString(filteredCount);
      var total := IntToString(totalBooks);
      |t| >= 12 + |shown| + |total| &&
      ParseInt(t[8..8 + |shown|], Decimal) == Int(filteredCount) &&
      t[8 + |shown|..12 + |shown|] == " of " &&
      ParseInt(t[12 + |shown|..12 + |shown| + |total|], Decimal) == Int(totalBooks)
  {
    var t := CounterText(filteredCount, totalBooks);
    var shown := IntToString(filteredCount);
    var total := IntToString(totalBooks);
    assert t == "Showing " + shown + " of " + total + " books";
    assert t[8..8 + |shown|] == shown;
    assert t[8 + |shown|..12 + |shown|] == " of ";
    assert t[12 + |shown|..12 + |shown| + |total|] == total;
    ParseIntOfIntToString(filteredCount, Decimal);
    ParseIntOfIntToString(totalBooks, Decimal);
  }

  /** The panel's state, and what it has told its parent. */
  class Panel {
    var searchQuery: string
    var showFilters: bool
    var filters: FilterOptions
    /** Every query passed to `onSearch`, oldest first. */
    var searched: seq<string>
    /** Every criteria record passed to `onFilter`, oldest first. */
    var filtered: seq<FilterOptions>

    /** A fresh panel: empty query, no criteria, filters hidden. */
    constructor()
      ensures searchQuery == "" && filters == NoFilters && !showFilters
      ensures searched == [] && filtered == []
    {
      searchQuery := "";
      showFilters := false;
      filters := NoFilters;
      searched := [];
      filtered := [];
    }

    /** `handleSearchChange`: stores the text and forwards exactly that text. */
    method HandleSearchChange(query: string)
      modifies this
      ensures searchQuery == query && searched == old(searched) + [query]
      ensures filters == old(filters) && filtered == old(filtered) && showFilters == old(showFilters)
    {
      searchQuery := query;
      searched := searched + [query];
    }

    /** `handleFilterChange`: the merged criteria are stored and passed on. */
    method HandleFilterChange(update: FilterUpdate)
      modifies this
      ensures filters == Merge(old(filters), update) && filtered == old(filtered) + [filters]
      ensures searchQuery == old(searchQuery) && searched == old(searched) && showFilters == old(showFilters)
    {
      var updated := Merge(filters, update);
      filters := updated;
      filtered := filtered + [updated];
    }

    /** The genre select's `onChange`. */
    method SelectGenre(value: string)
      modifies this
      ensures filters.genre == (if value == "" then None else Some(value))
      ensures filters.yearRange == old(filters.yearRange) && filtered == old(filtered) + [filters]
      ensures searchQuery == old(searchQuery) && searched == old(searched) && showFilters == old(showFilters)
    {
      HandleFilterChange(GenreUpdate(value));
    }

    /** The "From Year" input's `onChange`. */
    method EnterMinYear(text: string)
      modifies this
      ensures filters == Merge(old(filters), MinYearUpdate(old(filters), text)) && filtered == old(filtered) + [filters]
      ensures searchQuery == old(searchQuery) && searched == old(searched) && showFilters == old(showFilters)
    {
      HandleFilterChange(MinYearUpdate(filters, text));
    }

    /** The "To Year" input's `onChange`. */
    method EnterMaxYear(text: string)
      modifies this
      ensures filters == Merge(old(filters), MaxYearUpdate(old(filters), text)) && filtered == old(filtered) + [filters]
      ensures searchQuery == old(searchQuery) && searched == old(searched) && showFilters == old(showFilters)
    {
      HandleFilterChange(MaxYearUpdate(filters, text));
    }

    /** `clearFilters`: empties both, then tells the parent `''` and `{}`. */
    method ClearFilters()
      modifies this
      ensures filters == NoFilters && searchQuery == ""
      ensures searched == old(searched) + [""] && filtered == old(filtered) + [NoFilters]
      ensures showFilters == old(showFilters)
      ensures !HasActiveFilters(searchQuery, filters)
    {
      filters := NoFilters;
      searchQuery := "";
      searched := searched + [""];
      filtered := filtered + [NoFilters];
    }

    /** The "Filters" button: shows or hides the criteria. */
    method ToggleFilters()
      modifies this
      ensures showFilters == !old(showFilters)
      ensures searchQuery == old(searchQuery) && filters == old(filters)
      ensures searched == old(searched) && filtered == old(filtered)
    {
      showFilters := !showFilters;
    }
  }
}
