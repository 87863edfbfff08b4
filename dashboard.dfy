/**
 * The catalogue page (Frontend/src/pages/Dashboard.tsx): the filtered list
 * derived from the store, the modal that adds, edits, shows or deletes a book,
 * and the choice between spinner, error message and list.
 */
module Dashboard {
  import opened Wrappers
  import opened JsText
  import opened Seqs
  import opened Remote
  import opened BooksContext
  import opened SearchAndFilter
  import Validation
  import BooksApi

  /* ---------------------------------------------------------------- the filtered list */

  /** The lower-cased title or author contains the lower-cased query. */
  predicate MatchesQuery(book: Book, lowered: string) {
    Includes(ToLower(book.title), lowered) || Includes(ToLower(book.author), lowered)
  }

  /** The text search, which applies only to a non-empty query (whitespace included). */
  predicate QueryAdmits(book: Book, query: string) {
    query == "" || MatchesQuery(book, ToLower(query))
  }

  /** The genre criterion, which applies only to a non-empty genre and demands equality. */
  predicate GenreAdmits(book: Book, filters: FilterOptions) {
    !TextTruthy(filters.genre) || book.genre == filters.genre
  }

  /** The lower year bound, when it is truthy. */
  function MinBound(filters: FilterOptions): Option<int> {
    if filters.yearRange.Some? && BoundTruthy(filters.yearRange.value.min)
    then Some(filters.yearRange.value.min.value.value) else None
  }

  /** The upper year bound, when it is truthy. */
  function MaxBound(filters: FilterOptions): Option<int> {
    if filters.yearRange.Some? && BoundTruthy(filters.yearRange.value.max)
    then Some(filters.yearRange.value.max.value.value) else None
  }

  predicate MinAdmits(book: Book, filters: FilterOptions) {
    MinBound(filters).None? || book.year >= MinBound(filters).value
  }

  predicate MaxAdmits(book: Book, filters: FilterOptions) {
    MaxBound(filters).None? || book.year <= MaxBound(filters).value
  }

  /** A book is listed when it passes every criterion that applies. */
  predicate Admits(book: Book, query: string, filters: FilterOptions) {
    QueryAdmits(book, query) && GenreAdmits(book, filters) && MinAdmits(book, filters) && MaxAdmits(book, filters)
  }

  function AdmitsTest(query: string, filters: FilterOptions): Book -> bool {
    (book: Book) => Admits(book, query, filters)
  }

  /** The list the page shows: the books that pass every criterion that applies, in store order. */
  function FilteredView(books: seq<Book>, query: string, filters: FilterOptions): (r: seq<Book>)
    ensures |r| <= |books|
    ensures forall i :: 0 <= i < |r| ==> Admits(r[i], query, filters)
  {
    Filter(books, AdmitsTest(query, filters))
  }

  /* the criteria applied so far, after each step of the effect */
  function UpToQuery(query: string): Book -> bool {
    (book: Book) => QueryAdmits(book, query)
  }

  function UpToGenre(query: string, filters: FilterOptions): Book -> bool {
    (book: Book) => QueryAdmits(book, query) && GenreAdmits(book, filters)
  }

  function UpToMin(query: string, filters: FilterOptions): Book -> bool {
    (book: Book) => QueryAdmits(book, query) && GenreAdmits(book, filters) && MinAdmits(book, filters)
  }

  /** The filter effect: each criterion that applies narrows the list in turn. */
  method ApplyFilters(books: seq<Book>, searchQuery: string, filters: FilterOptions) returns (filtered: seq<Book>)
    ensures filtered == FilteredView(books, searchQuery, filters)
  {
    filtered := books;

    if searchQuery != "" {
      var query := ToLower(searchQuery);
      var test := (book: Book) => Includes(ToLower(book.title), query) || Includes(ToLower(book.author), query);
      filtered := Filter(filtered, test);
      FilterCongruent(books, test, UpToQuery(searchQuery));
    } else {
      FilterKeepsAll(books, UpToQuery(searchQuery));
    }
    assert filtered == Filter(books, UpToQuery(searchQuery));

    if TextTruthy(filters.genre) {
      var genre := filters.genre;
      var test := (book: Book) => book.genre == genre;
      filtered := Filter(filtered, test);
      FilterFilter(books, UpToQuery(searchQuery), test, UpToGenre(searchQuery, filters));
    } else {
      FilterCongruent(books, UpToQuery(searchQuery), UpToGenre(searchQuery, filters));
    }
    assert filtered == Filter(books, UpToGenre(searchQuery, filters));

    if MinBound(filters).Some? {
      var min := MinBound(filters).value;
      var test := (book: Book) => book.year >= min;
      filtered := Filter(filtered, test);
      FilterFilter(books, UpToGenre(searchQuery, filters), test, UpToMin(searchQuery, filters));
    } else {
      FilterCongruent(books, UpToGenre(searchQuery, filters), UpToMin(searchQuery, filters));
    }
    assert filtered == Filter(books, UpToMin(searchQuery, filters));

    if MaxBound(filters).Some? {
      var max := MaxBound(filters).value;
      var test := (book: Book) => book.year <= max;
      filtered := Filter(filtered, test);
      FilterFilter(books, UpToMin(searchQuery, filters), test, AdmitsTest(searchQuery, filters));
    } else {
      FilterCongruent(books, UpToMin(searchQuery, filters), AdmitsTest(searchQuery, filters));
    }
  }

  /**
   * A book is listed exactly when it is in the store and passes every
   * criterion, as many times as the store holds it; order is kept.
   */
  lemma FilteredViewIsSubsequence(books: seq<Book>, query: string, filters: FilterOptions)
    ensures forall b :: b in FilteredView(books, query, filters) <==> b in books && Admits(b, query, filters)
    ensures forall b :: (multiset(FilteredView(books, query, filters))[b] ==
      if Admits(b, query, filters) then multiset(books)[b] else 0)
    ensures IsSubsequence(FilteredView(books, query, filters), books)
  {
    forall b ensures b in FilteredView(books, query, filters) <==> b in books && Admits(b, query, filters) {
      FilterMembership(books, AdmitsTest(query, filters), b);
    }
    forall b ensures multiset(FilteredView(books, query, filters))[b] ==
      if Admits(b, query, filters) then multiset(books)[b] else 0
    {
      FilterMultiplicity(books, AdmitsTest(query, filters), b);
    }
    FilterIsSubsequence(books, AdmitsTest(query, filters));
  }

  /** Filtering the filtered list again by the same criteria changes nothing. */
  lemma FilteredViewIdempotent(books: seq<Book>, query: string, filters: FilterOptions)
    ensures FilteredView(FilteredView(books, query, filters), query, filters) == FilteredView(books, query, filters)
  {
    FilterIdempotent(books, AdmitsTest(query, filters));
  }

  /** When the panel shows no active criterion, every book is listed. */
  lemma InactiveCriteriaListEverything(books: seq<Book>, query: string, filters: FilterOptions)
    requires !HasActiveFilters(query, filters)
    ensures FilteredView(books, query, filters) == books
  {
    FilterKeepsAll(books, AdmitsTest(query, filters));
  }

  /** Both year bounds are inclusive; a bound of 0 does not apply. */
  lemma YearBoundsInclusive(book: Book, lo: int, hi: int)
    requires lo != 0 && hi != 0
    ensures Admits(book, "", FilterOptions(None, Some(YearRange(Some(Int(lo)), Some(Int(hi)))))) <==> lo <= book.year <= hi
    ensures Admits(book, "", FilterOptions(None, Some(YearRange(Some(Int(0)), Some(Int(0))))))
  {
  }

  /** A query of one space is still applied: a book with no space in its title or author is dropped. */
  lemma SpaceQueryStillFilters(book: Book)
    requires forall i :: 0 <= i < |book.title| ==> book.title[i] != ' '
    requires forall i :: 0 <= i < |book.author| ==> book.author[i] != ' '
    ensures !Admits(book, " ", NoFilters)
  {
    var lowered := ToLower(" ");
    assert lowered == " ";
    assert !Includes(ToLower(book.title), lowered) by {
      forall i | 0 <= i < |book.title| ensures !OccursAt(ToLower(book.title), lowered, i) {
        assert ToLower(book.title)[i..i + 1][0] == LowerChar(book.title[i]);
      }
    }
    assert !Includes(ToLower(book.author), lowered) by {
      forall i | 0 <= i < |book.author| ensures !OccursAt(ToLower(book.author), lowered, i) {
        assert ToLower(book.author)[i..i + 1][0] == LowerChar(book.author[i]);
      }
    }
  }

  /* ---------------------------------------------------------------- modal and view */

  /** `ModalType`; `NoModal` is `null`. */
  datatype ModalType = NoModal | Add | Edit | View | Delete

  /** `getModalTitle`. */
  function ModalTitle(modal: ModalType): (title: string)
    ensures title == "" <==> modal == NoModal
  {
    match modal
    case Add => "Add New Book"
    case Edit => "Edit Book"
    case View => "Book Details"
    case Delete => "Confirm Delete"
    case NoModal => ""
  }

  /** Different modals carry different titles. */
  lemma ModalTitlesDistinct(a: ModalType, b: ModalType)
    ensures ModalTitle(a) == ModalTitle(b) ==> a == b
  {
  }

  /** What the page renders. */
  datatype Screen = Spinner | ErrorScreen(message: string) | ListScreen

  /** The page's early returns: the spinner first, then the error, both only while the list is empty. */
  function SelectScreen(state: BooksState): (s: Screen)
    ensures s == Spinner <==> state.loading && state.books == []
    ensures s.ErrorScreen? <==> !state.loading && state.books == [] && TextTruthy(state.error)
    ensures s.ErrorScreen? ==> s.message == state.error.value
    ensures state.books != [] ==> s == ListScreen
  {
    if state.loading && |state.books| == 0 then Spinner
    else if TextTruthy(state.error) && |state.books| == 0 then ErrorScreen(state.error.value)
    else ListScreen
  }

  /** Once any operation of the current hooks has finished, the spinner is gone. */
  lemma NoSpinnerAfterOperation(state: BooksState, settle: BooksAction)
    ensures SelectScreen(Run(state, BooksApi.Bracketed(settle))) != Spinner
  {
    BooksApi.LoadingClearedAfterEveryOperation(state, settle);
  }

  /** A first fetch that fails with a plain `Error` shows the fixed message in place of the list. */
  lemma FailedFirstFetchShowsError(message: string)
    ensures SelectScreen(Run(InitialState, BooksApi.FetchBooksActions(Err(PlainError(message))))) ==
      ErrorScreen(BooksApi.FetchBooksFallback)
  {
    BooksApi.FetchBooksEffect(InitialState, Err(PlainError(message)));
  }

  /** A call the page made to the hooks. */
  datatype Request =
    | CreateRequest(data: Validation.BookFormData)
    | UpdateRequest(id: string, data: Validation.BookFormData)
    | DeleteRequest(id: string)

  /** The page's own state, over the store it reads. */
  class Page {
    const store: BooksStore
    var modalType: ModalType
    var editingBook: Option<Book>
    var deletingBook: Option<Book>
    var searchQuery: string
    var filters: FilterOptions
    var filteredBooks: seq<Book>

    /** No modal open. */
    predicate Closed()
      reads this
    {
      modalType == NoModal && editingBook == None && deletingBook == None
    }

    constructor(store: BooksStore)
      ensures this.store == store && Closed()
      ensures searchQuery == "" && filters == NoFilters && filteredBooks == []
    {
      this.store := store;
      modalType := NoModal;
      editingBook := None;
      deletingBook := None;
      searchQuery := "";
      filters := NoFilters;
      filteredBooks := [];
    }

    /** The filter effect, run after the books, the query or the criteria changed. */
    method RefreshFilteredBooks()
      modifies this
      ensures filteredBooks == FilteredView(store.state.books, searchQuery, filters)
      ensures modalType == old(modalType) && editingBook == old(editingBook) && deletingBook == old(deletingBook)
      ensures searchQuery == old(searchQuery) && filters == old(filters)
    {
      filteredBooks := ApplyFilters(store.state.books, searchQuery, filters);
    }

    /** `handleAddBook`. */
    method HandleAddBook()
      modifies this
      ensures modalType == Add && editingBook == None && deletingBook == old(deletingBook)
      ensures searchQuery == old(searchQuery) && filters == old(filters) && filteredBooks == old(filteredBooks)
    {
      modalType := Add;
      editingBook := None;
    }

    /** `handleEditBook`. */
    method HandleEditBook(book: Book)
      modifies this
      ensures modalType == Edit && editingBook == Some(book) && deletingBook == old(deletingBook)
      ensures searchQuery == old(searchQuery) && filters == old(filters) && filteredBooks == old(filteredBooks)
    {
      modalType := Edit;
      editingBook := Some(book);
    }

    /** `handleViewBook`: the viewed book is kept in the same slot as the edited one. */
    method HandleViewBook(book: Book)
      modifies this
      ensures modalType == View && editingBook == Some(book) && deletingBook == old(deletingBook)
      ensures searchQuery == old(searchQuery) && filters == old(filters) && filteredBooks == old(filteredBooks)
    {
      modalType := View;
      editingBook := Some(book);
    }

    /** `handleDeleteBook`. */
    method HandleDeleteBook(book: Book)
      modifies this
      ensures modalType == Delete && deletingBook == Some(book) && editingBook == old(editingBook)
      ensures searchQuery == old(searchQuery) && filters == old(filters) && filteredBooks == old(filteredBooks)
    {
      modalType := Delete;
      deletingBook := Some(book);
    }

    /** `closeModal`. */
    method CloseModal()
      modifies this
      ensures Closed()
      ensures searchQuery == old(searchQuery) && filters == old(filters) && filteredBooks == old(filteredBooks)
    {
      modalType := NoModal;
      editingBook := None;
      deletingBook := None;
    }

    /**
     * `handleFormSubmit`: creates in the add modal, updates the edited book in
     * the edit modal, and closes the modal unless the call threw.
     */
    method HandleFormSubmit(data: Validation.BookFormData, outcome: Outcome<Book>) returns (request: Option<Request>)
      requires store.Valid()
      modifies this, store
      ensures store.Valid()
      ensures old(modalType) == Add ==>
        request == Some(CreateRequest(data)) && store.state == Run(old(store.state), BooksApi.CreateBookActions(outcome))
      ensures old(modalType) == Edit && old(editingBook).Some? ==>
        request == Some(UpdateRequest(old(editingBook).value.id, data)) &&
        store.state == Run(old(store.state), BooksApi.UpdateBookActions(outcome))
      ensures !(old(modalType) == Add || (old(modalType) == Edit && old(editingBook).Some?)) ==> request == None
      ensures request == None ==> store.state == old(store.state) && store.dispatched == old(store.dispatched)
      ensures request == None || outcome.Ok? ==> Closed()
      ensures request.Some? && outcome.Err? ==>
        modalType == old(modalType) && editingBook == old(editingBook) && deletingBook == old(deletingBook)
      ensures searchQuery == old(searchQuery) && filters == old(filters) && filteredBooks == old(filteredBooks)
    {
      request := None;
      var threw := false;
      if modalType == Add {
        request := Some(CreateRequest(data));
        var result := BooksApi.CreateBook(store, outcome);
        threw := result.Err?;
      } else if modalType == Edit && editingBook.Some? {
        request := Some(UpdateRequest(editingBook.value.id, data));
        var result := BooksApi.UpdateBook(store, outcome);
        threw := result.Err?;
      }
      if !threw {
        CloseModal();
      }
    }

    /** `handleConfirmDelete`: deletes the chosen book and closes the modal unless the call threw. */
    method HandleConfirmDelete(outcome: Outcome<()>) returns (request: Option<Request>)
      requires store.Valid()
      modifies this, store
      ensures store.Valid()
      ensures old(deletingBook).Some? ==>
        request == Some(DeleteRequest(old(deletingBook).value.id)) &&
        store.state == Run(old(store.state), BooksApi.DeleteBookActions(old(deletingBook).value.id, outcome))
      ensures old(deletingBook).None? ==>
        request == None && store.state == old(store.state) && store.dispatched == old(store.dispatched)
      ensures request.Some? && outcome.Ok? ==> Closed()
      ensures request.None? || outcome.Err? ==>
        modalType == old(modalType) && editingBook == old(editingBook) && deletingBook == old(deletingBook)
      ensures searchQuery == old(searchQuery) && filters == old(filters) && filteredBooks == old(filteredBooks)
    {
      request := None;
      if deletingBook.Some? {
        var id := deletingBook.value.id;
        request := Some(DeleteRequest(id));
        var result := BooksApi.DeleteBook(store, id, outcome);
        if result.Ok? {
          CloseModal();
        }
      }
    }
  }
}
