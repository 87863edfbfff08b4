/**
 * The data hooks of the older client (project/src/hooks/useBooksAPI.ts).
 *
 * The same five operations as `BooksApi`, with two differences: there is no
 * `finally`, so no operation dispatches `SET_LOADING false` itself, and the
 * recorded message is the thrown `Error`'s `message` rather than an `error`
 * property. The older client's own store is not part of this model; the
 * operations run against the reducer of `BooksContext`.
 */
module BooksApiLegacy {
  import opened Wrappers
  import opened Remote
  import opened BooksContext
  import BooksApi

  /** `error instanceof Error ? error.message : fallback`. */
  function LegacyPayload(thrown: Thrown, fallback: string): (m: string)
    ensures thrown.isError ==> m == thrown.message
    ensures !thrown.isError ==> m == fallback
  {
    if thrown.isError then thrown.message else fallback
  }

  /** The action the `catch` block dispatches. */
  function Failure(thrown: Thrown, fallback: string): BooksAction {
    SetError(Some(LegacyPayload(thrown, fallback)))
  }

  /** `SET_LOADING true`, then the action of the `try` or `catch` block, and nothing after. */
  function Started(settle: BooksAction): seq<BooksAction> {
    [SetLoading(true), settle]
  }

  function FetchBooksActions(outcome: Outcome<seq<Book>>): seq<BooksAction> {
    Started(match outcome case Ok(list) => SetBooks(list) case Err(t) => Failure(t, BooksApi.FetchBooksFallback))
  }

  function FetchBookByIdActions(outcome: Outcome<Book>): seq<BooksAction> {
    Started(match outcome case Ok(book) => SetSelectedBook(Some(book)) case Err(t) => Failure(t, BooksApi.FetchBookFallback))
  }

  function CreateBookActions(outcome: Outcome<Book>): seq<BooksAction> {
    Started(match outcome case Ok(book) => AddBook(book) case Err(t) => Failure(t, BooksApi.CreateBookFallback))
  }

  function UpdateBookActions(outcome: Outcome<Book>): seq<BooksAction> {
    Started(match outcome case Ok(book) => BooksAction.UpdateBook(book) case Err(t) => Failure(t, BooksApi.UpdateBookFallback))
  }

  function DeleteBookActions(id: string, outcome: Outcome<()>): seq<BooksAction> {
    Started(match outcome case Ok(_) => BooksAction.DeleteBook(id) case Err(t) => Failure(t, BooksApi.DeleteBookFallback))
  }

  /* ---------------------------------------------------------------- the operations */

  /** Dispatches the two actions of an operation, in order. */
  method DispatchStarted(store: BooksStore, settle: BooksAction)
    requires store.Valid()
    modifies store
    ensures store.Valid()
    ensures store.dispatched == old(store.dispatched) + Started(settle)
    ensures store.state == Run(old(store.state), Started(settle))
  {
    store.Dispatch(SetLoading(true));
    store.Dispatch(settle);
    RunAppend(InitialState, old(store.dispatched), Started(settle));
  }

  /** `fetchBooks`: a failure is recorded and swallowed. */
  method FetchBooks(store: BooksStore, outcome: Outcome<seq<Book>>) returns (completion: Outcome<()>)
    requires store.Valid()
    modifies store
    ensures store.Valid()
    ensures store.dispatched == old(store.dispatched) + FetchBooksActions(outcome)
    ensures store.state == Run(old(store.state), FetchBooksActions(outcome))
    ensures completion == Ok(())
  {
    match outcome {
      case Ok(list) => DispatchStarted(store, SetBooks(list));
      case Err(t) => DispatchStarted(store, Failure(t, BooksApi.FetchBooksFallback));
    }
    completion := Ok(());
  }

  /** `fetchBookById`: returns the book, or rethrows. */
  method FetchBookById(store: BooksStore, outcome: Outcome<Book>) returns (result: Outcome<Book>)
    requires store.Valid()
    modifies store
    ensures store.Valid()
    ensures store.dispatched == old(store.dispatched) + FetchBookByIdActions(outcome)
    ensures store.state == Run(old(store.state), FetchBookByIdActions(outcome))
    ensures result == outcome
  {
    match outcome {
      case Ok(book) => DispatchStarted(store, SetSelectedBook(Some(book)));
      case Err(t) => DispatchStarted(store, Failure(t, BooksApi.FetchBookFallback));
    }
    result := outcome;
  }

  /** `createBook`: returns the created book, or rethrows. */
  method CreateBook(store: BooksStore, outcome: Outcome<Book>) returns (result: Outcome<Book>)
    requires store.Valid()
    modifies store
    ensures store.Valid()
    ensures store.dispatched == old(store.dispatched) + CreateBookActions(outcome)
    ensures store.state == Run(old(store.state), CreateBookActions(outcome))
    ensures result == outcome
  {
    match outcome {
      case Ok(book) => DispatchStarted(store, AddBook(book));
      case Err(t) => DispatchStarted(store, Failure(t, BooksApi.CreateBookFallback));
    }
    result := outcome;
  }

  /** `updateBook`: returns the updated book, or rethrows. */
  method UpdateBook(store: BooksStore, outcome: Outcome<Book>) returns (result: Outcome<Book>)
    requires store.Valid()
    modifies store
    ensures store.Valid()
    ensures store.dispatched == old(store.dispatched) + UpdateBookActions(outcome)
    ensures store.state == Run(old(store.state), UpdateBookActions(outcome))
    ensures result == outcome
  {
    match outcome {
      case Ok(book) => DispatchStarted(store, BooksAction.UpdateBook(book));
      case Err(t) => DispatchStarted(store, Failure(t, BooksApi.UpdateBookFallback));
    }
    result := outcome;
  }

  /** `deleteBook(id)`: completes, or rethrows. */
  method DeleteBook(store: BooksStore, id: string, outcome: Outcome<()>) returns (result: Outcome<()>)
    requires store.Valid()
    modifies store
    ensures store.Valid()
    ensures store.dispatched == old(store.dispatched) + DeleteBookActions(id, outcome)
    ensures store.state == Run(old(store.state), DeleteBookActions(id, outcome))
    ensures result == outcome
  {
    match outcome {
      case Ok(_) => DispatchStarted(store, BooksAction.DeleteBook(id));
      case Err(t) => DispatchStarted(store, Failure(t, BooksApi.DeleteBookFallback));
    }
    result := outcome;
  }

  /* ---------------------------------------------------------------- properties */

  /** Every operation turns loading on first and never turns it off itself. */
  lemma NeverDispatchesLoadingOff(settle: BooksAction)
    requires !settle.SetLoading?
    ensures var acts := Started(settle);
      acts[0] == SetLoading(true) && forall i :: 0 <= i < |acts| ==> acts[i] != SetLoading(false)
  {
  }

  /** The composed effect: the settling action on a loading state. */
  lemma {:induction false} RunStarted(state: BooksState, settle: BooksAction)
    ensures Run(state, Started(settle)) == Reduce(state.(loading := true), settle)
  {
    var acts := Started(settle);
    var first := [SetLoading(true)];
    assert first[..0] == [];
    assert Run(state, first) == state.(loading := true);
    assert acts[..1] == first;
  }

  /**
   * Loading ends up off only when the settling action's reducer case clears
   * it: `SET_BOOKS` and `SET_ERROR`. After a successful fetch by id, create,
   * update or delete it stays on.
   */
  lemma LoadingClearedOnlyBySettlingCase(state: BooksState, settle: BooksAction)
    requires !settle.SetLoading? && !settle.Unrecognised?
    ensures !Run(state, Started(settle)).loading <==> settle.SetBooks? || settle.SetError?
  {
    RunStarted(state, settle);
  }

  /** `fetchBooks`: either way the list or the error is set and loading ends. */
  lemma FetchBooksEffect(state: BooksState, outcome: Outcome<seq<Book>>)
    ensures var r := Run(state, FetchBooksActions(outcome));
      !r.loading && r.selectedBook == state.selectedBook &&
      (outcome.Ok? ==> r.books == outcome.value && r.error == None) &&
      (outcome.Err? ==>
        r.books == state.books && r.error == Some(LegacyPayload(outcome.thrown, BooksApi.FetchBooksFallback)))
  {
    match outcome {
      case Ok(list) => RunStarted(state, SetBooks(list));
      case Err(t) => RunStarted(state, Failure(t, BooksApi.FetchBooksFallback));
    }
  }

  /** `createBook`: a success appends the book and leaves loading on; a failure records the message and ends loading. */
  lemma CreateBookEffect(state: BooksState, outcome: Outcome<Book>)
    ensures var r := Run(state, CreateBookActions(outcome));
      r.selectedBook == state.selectedBook &&
      (outcome.Ok? ==> r.books == state.books + [outcome.value] && r.error == state.error && r.loading) &&
      (outcome.Err? ==>
        r.books == state.books && !r.loading && r.error == Some(LegacyPayload(outcome.thrown, BooksApi.CreateBookFallback)))
  {
    match outcome {
      case Ok(book) => RunStarted(state, AddBook(book));
      case Err(t) => RunStarted(state, Failure(t, BooksApi.CreateBookFallback));
    }
  }

  /** `fetchBookById`, `updateBook` and `deleteBook` succeed with loading still on. */
  lemma OtherSuccessesLeaveLoading(state: BooksState, book: Book, id: string)
    ensures Run(state, FetchBookByIdActions(Ok(book))).loading
    ensures Run(state, UpdateBookActions(Ok(book))).loading
    ensures Run(state, DeleteBookActions(id, Ok(()))).loading
  {
    RunStarted(state, SetSelectedBook(Some(book)));
    RunStarted(state, BooksAction.UpdateBook(book));
    RunStarted(state, BooksAction.DeleteBook(id));
  }

  /**
   * The newer hook clears loading after the same successful creation, and on
   * the same thrown `Error` the two hooks record different messages.
   */
  lemma VariantsCompared(state: BooksState, book: Book, message: string)
    ensures Run(state, CreateBookActions(Ok(book))).loading
    ensures !Run(state, BooksApi.CreateBookActions(Ok(book))).loading
    ensures Run(state, CreateBookActions(Err(PlainError(message)))).error == Some(message)
    ensures Run(state, BooksApi.CreateBookActions(Err(PlainError(message)))).error == Some(BooksApi.CreateBookFallback)
  {
    CreateBookEffect(state, Ok(book));
    CreateBookEffect(state, Err(PlainError(message)));
    BooksApi.CreateBookEffect(state, Ok(book));
    BooksApi.CreateBookEffect(state, Err(PlainError(message)));
  }
}
