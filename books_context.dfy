/**
 * The catalogue's store (Frontend/src/context/BooksContext.tsx): the state
 * record, the seven actions, the reducer, the provider that owns the state and
 * the `useBooks` guard.
 *
 * `Reduce` is the reducer as a pure function. `BooksStore` is the provider's
 * `useReducer` cell: a class whose `Dispatch` applies the reducer in place.
 */
module BooksContext {
  import opened Wrappers
  import opened Seqs
  import opened Remote

  /**
   * A book as the client holds it. The declared interface names the genre and
   * the cover `genre` and `coverUrl`, while the current form reads `type` (here
   * `bookType`) and `coverImageURL`; the record carries all of them.
   */
  datatype Book = Book(
    id: string,
    title: string,
    author: string,
    year: int,
    isbn: Option<string>,
    description: Option<string>,
    genre: Option<string>,
    bookType: Option<string>,
    pages: Option<int>,
    publisher: Option<string>,
    coverUrl: Option<string>,
    coverImageURL: Option<string>)

  /** `BooksState`; `None` is `null`. */
  datatype BooksState = BooksState(
    books: seq<Book>,
    selectedBook: Option<Book>,
    loading: bool,
    error: Option<string>)

  /** `initialState`: no books, no selection, not loading, no error. */
  const InitialState := BooksState([], None, false, None)

  /**
   * `BooksAction`. `Unrecognised` stands for any object whose `type` is none of
   * the seven, which the reducer's `default` branch receives.
   */
  datatype BooksAction =
    | SetLoading(flag: bool)
    | SetError(message: Option<string>)
    | SetBooks(list: seq<Book>)
    | AddBook(added: Book)
    | UpdateBook(updated: Book)
    | DeleteBook(deletedId: string)
    | SetSelectedBook(selected: Option<Book>)
    | Unrecognised(kind: string)

  /* ---------------------------------------------------------------- list operations */

  /** `books.map(book => book.id === updated.id ? updated : book)`. */
  function ReplaceById(books: seq<Book>, updated: Book): (r: seq<Book>)
    ensures |r| == |books|
    ensures forall i :: 0 <= i < |books| ==> r[i] == (if books[i].id == updated.id then updated else books[i])
  {
    if books == [] then []
    else [if books[0].id == updated.id then updated else books[0]] + ReplaceById(books[1..], updated)
  }

  /** The filter predicate of `DELETE_BOOK`: the book's id differs from `id`. */
  function IdIsNot(id: string): Book -> bool {
    (book: Book) => book.id != id
  }

  /** `books.filter(book => book.id !== id)`. */
  function RemoveById(books: seq<Book>, id: string): (r: seq<Book>)
    ensures forall i :: 0 <= i < |r| ==> r[i].id != id
  {
    Filter(books, IdIsNot(id))
  }

  /** Some book in the list has this id. */
  predicate HasId(books: seq<Book>, id: string) {
    exists i :: 0 <= i < |books| && books[i].id == id
  }

  /* ---------------------------------------------------------------- the reducer */

  /** `booksReducer`. */
  function Reduce(state: BooksState, action: BooksAction): BooksState {
    match action
    case SetLoading(flag) => state.(loading := flag)
    case SetError(message) => state.(error := message, loading := false)
    case SetBooks(list) => state.(books := list, loading := false, error := None)
    case AddBook(book) => state.(books := state.books + [book])
    case UpdateBook(book) => state.(books := ReplaceById(state.books, book))
    case DeleteBook(id) => state.(books := RemoveById(state.books, id))
    case SetSelectedBook(book) => state.(selectedBook := book)
    case Unrecognised(_) => state
  }

  /** The state after dispatching `actions` in order, starting from `state`. */
  function Run(state: BooksState, actions: seq<BooksAction>): BooksState {
    if actions == [] then state
    else Reduce(Run(state, actions[..|actions| - 1]), actions[|actions| - 1])
  }

  /** Dispatching two sequences is dispatching their concatenation. */
  lemma {:induction false} RunAppend(state: BooksState, first: seq<BooksAction>, second: seq<BooksAction>)
    ensures Run(state, first + second) == Run(Run(state, first), second)
  {
    if second == [] {
      assert first + second == first;
    } else {
      var n := |second| - 1;
      assert (first + second)[..|first + second| - 1] == first + second[..n];
      assert (first + second)[|first + second| - 1] == second[n];
      RunAppend(state, first, second[..n]);
    }
  }

  /* ---------------------------------------------------------------- what each action changes */

  /** `SET_LOADING` changes `loading` alone. */
  lemma SetLoadingChangesOnlyLoading(state: BooksState, flag: bool)
    ensures var r := Reduce(state, SetLoading(flag));
      r.loading == flag && r.books == state.books && r.selectedBook == state.selectedBook && r.error == state.error
  {
  }

  /** `SET_ERROR` records the message and stops loading; books and selection are kept. */
  lemma SetErrorStopsLoading(state: BooksState, message: Option<string>)
    ensures var r := Reduce(state, SetError(message));
      r.error == message && !r.loading && r.books == state.books && r.selectedBook == state.selectedBook
  {
  }

  /** `SET_BOOKS` replaces the list wholesale, clears the error and stops loading; the selection is kept. */
  lemma SetBooksReplacesList(state: BooksState, list: seq<Book>)
    ensures var r := Reduce(state, SetBooks(list));
      r.books == list && r.error == None && !r.loading && r.selectedBook == state.selectedBook
  {
  }

  /** `SET_SELECTED_BOOK` changes the selection alone. */
  lemma SetSelectedChangesOnlySelection(state: BooksState, book: Option<Book>)
    ensures var r := Reduce(state, SetSelectedBook(book));
      r.selectedBook == book && r.books == state.books && r.loading == state.loading && r.error == state.error
  {
  }

  /** Any other action returns the state as it was. */
  lemma UnrecognisedActionIgnored(state: BooksState, kind: string)
    ensures Reduce(state, Unrecognised(kind)) == state
  {
  }

  /** Only the list actions touch the list, and only `SET_SELECTED_BOOK` the selection. */
  lemma ActionFootprints(state: BooksState, action: BooksAction)
    ensures !(action.SetBooks? || action.AddBook? || action.UpdateBook? || action.DeleteBook?) ==>
      Reduce(state, action).books == state.books
    ensures !action.SetSelectedBook? ==> Reduce(state, action).selectedBook == state.selectedBook
    ensures action.AddBook? || action.UpdateBook? || action.DeleteBook? ==>
      Reduce(state, action).loading == state.loading && Reduce(state, action).error == state.error
  {
  }

  /** `ADD_BOOK` appends at the end, keeping every earlier book where it was, even when the id is taken. */
  lemma AddBookAppends(state: BooksState, book: Book)
    ensures var r := Reduce(state, AddBook(book)).books;
      |r| == |state.books| + 1 && r[..|state.books|] == state.books && r[|state.books|] == book
  {
  }

  /** `UPDATE_BOOK` keeps the length and every id, and each position holds the update exactly when its id matched. */
  lemma UpdateBookReplacesMatches(state: BooksState, book: Book)
    ensures var r := Reduce(state, UpdateBook(book)).books;
      |r| == |state.books| &&
      (forall i :: 0 <= i < |r| ==> r[i].id == state.books[i].id) &&
      (forall i :: 0 <= i < |r| ==> (r[i] == book || r[i] == state.books[i])) &&
      (forall i :: 0 <= i < |r| && state.books[i].id == book.id ==> r[i] == book)
  {
  }

  /** With no book of that id, `UPDATE_BOOK` changes nothing. */
  lemma {:induction false} UpdateAbsentIsNoop(books: seq<Book>, book: Book)
    requires !HasId(books, book.id)
    ensures ReplaceById(books, book) == books
  {
    if books != [] {
      assert books[0].id != book.id;
      assert !HasId(books[1..], book.id) by {
        forall i | 0 <= i < |books[1..]| ensures books[1..][i].id != book.id {
          assert books[1..][i] == books[i + 1];
        }
      }
      UpdateAbsentIsNoop(books[1..], book);
    }
  }

  /** Applying the same update twice is applying it once. */
  lemma UpdateIdempotent(books: seq<Book>, book: Book)
    ensures ReplaceById(ReplaceById(books, book), book) == ReplaceById(books, book)
  {
  }

  /**
   * `DELETE_BOOK` keeps exactly the books with another id, every copy of each,
   * in their order.
   */
  lemma DeleteBookRemovesId(books: seq<Book>, id: string)
    ensures forall b :: b in RemoveById(books, id) <==> b in books && b.id != id
    ensures forall b :: multiset(RemoveById(books, id))[b] == if b.id != id then multiset(books)[b] else 0
    ensures IsSubsequence(RemoveById(books, id), books)
    ensures !HasId(RemoveById(books, id), id)
  {
    forall b ensures b in RemoveById(books, id) <==> b in books && b.id != id {
      FilterMembership(books, IdIsNot(id), b);
    }
    forall b ensures multiset(RemoveById(books, id))[b] == if b.id != id then multiset(books)[b] else 0 {
      FilterMultiplicity(books, IdIsNot(id), b);
    }
    FilterIsSubsequence(books, IdIsNot(id));
  }

  /** Deleting an id twice is deleting it once. */
  lemma DeleteIdempotent(books: seq<Book>, id: string)
    ensures RemoveById(RemoveById(books, id), id) == RemoveById(books, id)
  {
    FilterIdempotent(books, IdIsNot(id));
  }

  /** Adding a book whose id is new and then deleting that id restores the list. */
  lemma AddThenDeleteRestores(state: BooksState, book: Book)
    requires !HasId(state.books, book.id)
    ensures Run(state, [AddBook(book), DeleteBook(book.id)]) == state
  {
    var p := IdIsNot(book.id);
    assert [AddBook(book), DeleteBook(book.id)][..1] == [AddBook(book)];
    assert Run(state, [AddBook(book)]) == Reduce(state, AddBook(book)) by {
      assert [AddBook(book)][..0] == [];
    }
    FilterAppend(state.books, [book], p);
    FilterKeepsAll(state.books, p);
    assert Filter([book], p) == [];
  }

  /* ---------------------------------------------------------------- the provider */

  /** The `useReducer` cell of `BooksProvider`. */
  class BooksStore {
    /** The current state. */
    var state: BooksState
    /** Every action dispatched so far, oldest first. */
    ghost var dispatched: seq<BooksAction>

    /** The state is the initial state run through everything dispatched. */
    ghost predicate Valid()
      reads this
    {
      state == Run(InitialState, dispatched)
    }

    /** `useReducer(booksReducer, initialState)`. */
    constructor()
      ensures Valid() && state == InitialState && dispatched == []
    {
      state := InitialState;
      dispatched := [];
    }

    /** `dispatch(action)`: the reducer's result becomes the state. */
    method Dispatch(action: BooksAction)
      requires Valid()
      modifies this
      ensures Valid()
      ensures state == Reduce(old(state), action)
      ensures dispatched == old(dispatched) + [action]
    {
      state := Reduce(state, action);
      dispatched := dispatched + [action];
      assert dispatched[..|dispatched| - 1] == old(dispatched);
    }
  }

  /** The message `useBooks` throws outside a provider. */
  const OutsideProvider := "useBooks must be used within a BooksProvider"

  /**
   * `useBooks`: the surrounding provider's context, or a thrown `Error` when
   * there is none.
   */
  function UseBooks<C>(context: Option<C>): (r: Outcome<C>)
    ensures r.Ok? <==> context.Some?
    ensures r.Ok? ==> r.value == context.value
    ensures r.Err? ==> r.thrown == PlainError(OutsideProvider)
  {
    match context
    case Some(c) => Ok(c)
    case None => Err(PlainError(OutsideProvider))
  }
}
