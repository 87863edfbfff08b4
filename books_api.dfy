/**
 * The data hooks of the current client (Frontend/src/hooks/useBooksAPI.ts).
 *
 * Each operation turns loading on, awaits the book service, dispatches the
 * success action or `SET_ERROR`, and turns loading off in `finally`. The
 * service call is not modelled: its outcome is a parameter. `...Actions`
 * gives the sequence an operation dispatches, the methods dispatch it into the
 * store step by step, and the lemmas state what the store holds afterwards.
 */
module BooksApi {
  import opened Wrappers
  import opened Remote
  import opened BooksContext

  /** `err?.error ?? fallback`: the thrown value's `error` property, or the operation's own message. */
  function ErrorPayload(thrown: Thrown, fallback: string): (m: string)
    ensures thrown.errorField.Some? ==> m == thrown.errorField.value
    ensures thrown.errorField.None? ==> m == fallback
  {
    thrown.errorField.GetOr(fallback)
  }

  const FetchBooksFallback := "Failed to fetch books"
  const FetchBookFallback := "Failed to fetch book"
  const CreateBookFallback := "Failed to create book"
  const UpdateBookFallback := "Failed to update book"
  const DeleteBookFallback := "Failed to delete book"

  /** The action the `catch` block dispatches. */
  function Failure(thrown: Thrown, fallback: string): BooksAction {
    SetError(Some(ErrorPayload(thrown, fallback)))
  }

  /** `setLoading(true)`, the action of the `try` or `catch` block, then `setLoading(false)` from `finally`. */
  function Bracketed(settle: BooksAction): seq<BooksAction> {
    [SetLoading(true), settle, SetLoading(false)]
  }

  /** The actions that mark a successful call. */
  predicate IsSuccessAction(a: BooksAction) {
    a.SetBooks? || a.SetSelectedBook? || a.AddBook? || a.UpdateBook? || a.DeleteBook?
  }

  function FetchBooksActions(outcome: Outcome<seq<Book>>): seq<BooksAction> {
    Bracketed(match outcome case Ok(list) => SetBooks(list) case Err(t) => Failure(t, FetchBooksFallback))
  }

  function FetchBookByIdActions(outcome: Outcome<Book>): seq<BooksAction> {
    Bracketed(match outcome case Ok(book) => SetSelectedBook(Some(book)) case Err(t) => Failure(t, FetchBookFallback))
  }

  function CreateBookActions(outcome: Outcome<Book>): seq<BooksAction> {
    Bracketed(match outcome case Ok(book) => AddBook(book) case Err(t) => Failure(t, CreateBookFallback))
  }

  function UpdateBookActions(outcome: Outcome<Book>): seq<BooksAction> {
    Bracketed(match outcome case Ok(book) => BooksAction.UpdateBook(book) case Err(t) => Failure(t, UpdateBookFallback))
  }

  /** `deleteBook(id)` removes its own `id` argument, whatever the service returned. */
  function DeleteBookActions(id: string, outcome: Outcome<()>): seq<BooksAction> {
    Bracketed(match outcome case Ok(_) => BooksAction.DeleteBook(id) case Err(t) => Failure(t, DeleteBookFallback))
  }

  /* ---------------------------------------------------------------- the operations */

  /** Dispatches the three actions of an operation, in order. */
  method DispatchBracketed(store: BooksStore, settle: BooksAction)
    requires store.Valid()
    modifies store
    ensures store.Valid()
    ensures store.dispatched == old(store.dispatched) + Bracketed(settle)
    ensures store.state == Run(old(store.state), Bracketed(settle))
  {
    store.Dispatch(SetLoading(true));
    store.Dispatch(settle);
    store.Dispatch(SetLoading(false));
    RunAppend(InitialState, old(store.dispatched), Bracketed(settle));
  }

  /** `fetchBooks`: a failure is recorded and swallowed, so the call always completes. */
  method FetchBooks(store: BooksStore, outcome: Outcome<seq<Book>>) returns (completion: Outcome<()>)
    requires store.Valid()
    modifies store
    ensures store.Valid()
    ensures store.dispatched == old(store.dispatched) + FetchBooksActions(outcome)
    ensures store.state == Run(old(store.state), FetchBooksActions(outcome))
    ensures completion == Ok(())
  {
    match outcome {
      case Ok(list) => DispatchBracketed(store, SetBooks(list));
      case Err(t) => DispatchBracketed(store, Failure(t, FetchBooksFallback));
    }
    completion := Ok(());
  }

  /** `fetchBookById`: returns the book, or rethrows what the service threw. */
  method FetchBookById(store: BooksStore, outcome: Outcome<Book>) returns (result: Outcome<Book>)
    requires store.Valid()
    modifies store
    ensures store.Valid()
    ensures store.dispatched == old(store.dispatched) + FetchBookByIdActions(outcome)
    ensures store.state == Run(old(store.state), FetchBookByIdActions(outcome))
    ensures result == outcome
  {
    match outcome {
      case Ok(book) => DispatchBracketed(store, SetSelectedBook(Some(book)));
      case Err(t) => DispatchBracketed(store, Failure(t, FetchBookFallback));
    }
    result := outcome;
  }

  /** `createBook`: returns the created book, or rethrows. */
  method CreateBook(store: BooksStore, outcome: Outcome<Book>) returns (result: Outcome<Book>)
    requires store.Valid()
    modifies store
    ensures store.Valid()
    ensures store.dispatched == old(store.dispatched) + CreateBookActions(outcome)
    ensures store.state == Run(old(store.state), CreateBookActions(outcome))
    ensures result == outcome
  {
    match outcome {
      case Ok(book) => DispatchBracketed(store, AddBook(book));
      case Err(t) => DispatchBracketed(store, Failure(t, CreateBookFallback));
    }
    result := outcome;
  }

  /** `updateBook`: returns the updated book, or rethrows. */
  method UpdateBook(store: BooksStore, outcome: Outcome<Book>) returns (result: Outcome<Book>)
    requires store.Valid()
    modifies store
    ensures store.Valid()
    ensures store.dispatched == old(store.dispatched) + UpdateBookActions(outcome)
    ensures store.state == Run(old(store.state), UpdateBookActions(outcome))
    ensures result == outcome
  {
    match outcome {
      case Ok(book) => DispatchBracketed(store, BooksAction.UpdateBook(book));
      case Err(t) => DispatchBracketed(store, Failure(t, UpdateBookFallback));
    }
    result := outcome;
  }

  /** `deleteBook(id)`: completes, or rethrows. */
  method DeleteBook(store: BooksStore, id: string, outcome: Outcome<()>) returns (result: Outcome<()>)
    requires store.Valid()
    modifies store
    ensures store.Valid()
    ensures store.dispatched == old(store.dispatched) + DeleteBookActions(id, outcome)
    ensures store.state == Run(old(store.state), DeleteBookActions(id, outcome))
    ensures result == outcome
  {
    match outcome {
      case Ok(_) => DispatchBracketed(store, BooksAction.DeleteBook(id));
      case Err(t) => DispatchBracketed(store, Failure(t, DeleteBookFallback));
    }
    result := outcome;
  }

  /* ---------------------------------------------------------------- properties */

  /**
   * Every operation starts by turning loading on and ends by turning it off,
   * with exactly one action between: `SET_ERROR` on a failure, a success
   * action otherwise.
   */
  lemma BracketShape(settle: BooksAction, failed: bool)
    requires settle.SetError? <==> failed
    ensures var acts := Bracketed(settle);
      acts[0] == SetLoading(true) && acts[|acts| - 1] == SetLoading(false) &&
      (forall i :: 0 <= i < |acts| ==> (acts[i].SetError? <==> failed && i == 1)) &&
      (failed ==> forall i :: 0 <= i < |acts| ==> !IsSuccessAction(acts[i]))
  {
  }

  /** The composed effect of a bracket: the settling action on a loading state, then loading off. */
  lemma {:induction false} RunBracketed(state: BooksState, settle: BooksAction)
    ensures Run(state, Bracketed(settle)) == Reduce(state.(loading := true), settle).(loading := false)
  {
    var acts := Bracketed(settle);
    var first := [SetLoading(true)];
    var firstTwo := [SetLoading(true), settle];
    assert first[..0] == [];
    assert Run(state, first) == state.(loading := true);
    assert firstTwo[..1] == first;
    assert Run(state, firstTwo) == Reduce(state.(loading := true), settle);
    assert acts[..2] == firstTwo;
  }

  /** After any operation, whatever the outcome, the store is no longer loading. */
  lemma LoadingClearedAfterEveryOperation(state: BooksState, settle: BooksAction)
    ensures !Run(state, Bracketed(settle)).loading
  {
    RunBracketed(state, settle);
  }

  /** `fetchBooks`: the list is replaced and the error cleared, or the error recorded and the list kept. */
  lemma FetchBooksEffect(state: BooksState, outcome: Outcome<seq<Book>>)
    ensures var r := Run(state, FetchBooksActions(outcome));
      !r.loading && r.selectedBook == state.selectedBook &&
      (outcome.Ok? ==> r.books == outcome.value && r.error == None) &&
      (outcome.Err? ==> r.books == state.books && r.error == Some(ErrorPayload(outcome.thrown, FetchBooksFallback)))
  {
    match outcome {
      case Ok(list) => RunBracketed(state, SetBooks(list));
      case Err(t) => RunBracketed(state, Failure(t, FetchBooksFallback));
    }
  }

  /** `fetchBookById`: the book becomes the selection, or the error is recorded; the list is kept. */
  lemma FetchBookByIdEffect(state: BooksState, outcome: Outcome<Book>)
    ensures var r := Run(state, FetchBookByIdActions(outcome));
      !r.loading && r.books == state.books &&
      (outcome.Ok? ==> r.selectedBook == Some(outcome.value) && r.error == state.error) &&
      (outcome.Err? ==> r.selectedBook == state.selectedBook && r.error == Some(ErrorPayload(outcome.thrown, FetchBookFallback)))
  {
    match outcome {
      case Ok(book) => RunBracketed(state, SetSelectedBook(Some(book)));
      case Err(t) => RunBracketed(state, Failure(t, FetchBookFallback));
    }
  }

  /** `createBook`: the new book is appended, or the error recorded and the list kept. */
  lemma CreateBookEffect(state: BooksState, outcome: Outcome<Book>)
    ensures var r := Run(state, CreateBookActions(outcome));
      !r.loading && r.selectedBook == state.selectedBook &&
      (outcome.Ok? ==> r.books == state.books + [outcome.value] && r.error == state.error) &&
      (outcome.Err? ==> r.books == state.books && r.error == Some(ErrorPayload(outcome.thrown, CreateBookFallback)))
  {
    match outcome {
      case Ok(book) => RunBracketed(state, AddBook(book));
      case Err(t) => RunBracketed(state, Failure(t, CreateBookFallback));
    }
  }

  /** `updateBook`: every book with the returned id is replaced, or the error recorded and the list kept. */
  lemma UpdateBookEffect(state: BooksState, outcome: Outcome<Book>)
    ensures var r := Run(state, UpdateBookActions(outcome));
      !r.loading && r.selectedBook == state.selectedBook &&
      (outcome.Ok? ==> r.books == ReplaceById(state.books, outcome.value) && r.error == state.error) &&
      (outcome.Err? ==> r.books == state.books && r.error == Some(ErrorPayload(outcome.thrown, UpdateBookFallback)))
  {
    match outcome {
      case Ok(book) => RunBracketed(state, BooksAction.UpdateBook(book));
      case Err(t) => RunBracketed(state, Failure(t, UpdateBookFallback));
    }
  }

  /** `deleteBook(id)`: the books with that id are removed only after the service succeeded. */
  lemma DeleteBookEffect(state: BooksState, id: string, outcome: Outcome<()>)
    ensures var r := Run(state, DeleteBookActions(id, outcome));
      !r.loading && r.selectedBook == state.selectedBook &&
      (outcome.Ok? ==> r.books == RemoveById(state.books, id) && !HasId(r.books, id) && r.error == state.error) &&
      (outcome.Err? ==> r.books == state.books && r.error == Some(ErrorPayload(outcome.thrown, DeleteBookFallback)))
  {
    match outcome {
      case Ok(_) =>
        RunBracketed(state, BooksAction.DeleteBook(id));
        DeleteBookRemovesId(state.books, id);
      case Err(t) => RunBracketed(state, Failure(t, DeleteBookFallback));
    }
  }

  /** A plain `Error` has no `error` property, so the operation's fixed message is what gets recorded. */
  lemma PlainErrorRecordsFallback(message: string, fallback: string)
    ensures ErrorPayload(PlainError(message), fallback) == fallback
  {
  }
}
