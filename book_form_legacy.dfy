/**
 * The add/edit form of the older client (project/src/components/forms/BookForm.tsx),
 * without its markup.
 *
 * Its inputs carry `genre` and `coverUrl` where the current form has `type`
 * and `coverImageURL`, its genre list is fixed, and its blur handler always
 * writes the field's error, so a blur can clear one. The older client's
 * validator is not part of this model: the handlers take it as a function
 * from the form's record to the field errors it reports.
 */
module BookFormLegacy {
  import opened Wrappers
  import opened JsText
  import opened BooksContext
  import opened Validation
  import BookForm

  /** The form's inputs, by `name`. */
  const FormFields: set<Field> := {Title, Author, Year, Isbn, Description, Genre, Pages, Publisher, CoverUrl}

  /** `formData`: the text of every input. */
  datatype FormData = FormData(
    title: string, author: string, year: string, isbn: string, description: string,
    genre: string, pages: string, publisher: string, coverUrl: string)
  {
    /** `formData[name]`; a name the form has no input for reads as `''`. */
    function Get(name: Field): string {
      match name
      case Title => title
      case Author => author
      case Year => year
      case Isbn => isbn
      case Description => description
      case Genre => genre
      case Pages => pages
      case Publisher => publisher
      case CoverUrl => coverUrl
      case _ => ""
    }

    /** `{ ...prev, [name]: value }`: the named input changes and no other. */
    function With(name: Field, value: string): (r: FormData)
      requires name in FormFields
      ensures r.Get(name) == value
      ensures forall f :: f != name ==> r.Get(f) == Get(f)
    {
      match name
      case Title => this.(title := value)
      case Author => this.(author := value)
      case Year => this.(year := value)
      case Isbn => this.(isbn := value)
      case Description => this.(description := value)
      case Genre => this.(genre := value)
      case Pages => this.(pages := value)
      case Publisher => this.(publisher := value)
      case CoverUrl => this.(coverUrl := value)
    }
  }

  /** The initial `formData`: every input empty. */
  const EmptyForm := FormData("", "", "", "", "", "", "", "", "")

  /** The genre select's options, after the blank "Select a genre". */
  const Genres: seq<string> := [
    "Fiction", "Non-Fiction", "Mystery", "Romance", "Science Fiction",
    "Fantasy", "Biography", "History", "Self-Help", "Business", "Other"]

  /** The fixed list has eleven entries ending in "Other"; the current form's fallback list is the same without "Other". */
  lemma GenresAreFallbackPlusOther()
    ensures |Genres| == 11 && Genres[10] == "Other"
    ensures Genres == BookForm.FallbackTypes + ["Other"]
  {
  }

  /** The hydration effect's record for `book`: each value as text, `''` when absent. */
  function HydratedFields(book: Book): FormData {
    FormData(book.title, book.author, IntToString(book.year), book.isbn.GetOr(""),
      book.description.GetOr(""), book.genre.GetOr(""), BookForm.NumberText(book.pages),
      book.publisher.GetOr(""), book.coverUrl.GetOr(""))
  }

  /** The record `handleSubmit` passes to `onSubmit`: title and author untrimmed, empty optionals dropped. */
  function Payload(fd: FormData): BookFormData {
    BookFormData(fd.title, fd.author, Number(BookForm.YearPayload(fd.year)), BookForm.OptionalText(fd.isbn),
      BookForm.OptionalText(fd.description), BookForm.OptionalText(fd.genre), None, BookForm.PagesPayload(fd.pages),
      BookForm.OptionalText(fd.publisher), BookForm.OptionalText(fd.coverUrl), None)
  }

  /**
   * Editing a book without touching the form submits the book back: title,
   * author, year and pages as they were, every non-empty optional text as it
   * was, an empty one as absent; the type and cover image fields are not sent.
   */
  lemma PayloadOfHydrated(book: Book)
    ensures var p := Payload(HydratedFields(book));
      p.title == book.title && p.author == book.author && p.year == Number(Int(book.year)) &&
      p.pages == (if book.pages.Some? then Some(Number(Int(book.pages.value))) else None) &&
      p.isbn == BookForm.NonEmpty(book.isbn) && p.description == BookForm.NonEmpty(book.description) &&
      p.genre == BookForm.NonEmpty(book.genre) && p.publisher == BookForm.NonEmpty(book.publisher) &&
      p.coverUrl == BookForm.NonEmpty(book.coverUrl) && p.bookType == None && p.coverImageURL == None
  {
    ParseIntOfIntToString(book.year, Auto);
    if book.pages.Some? {
      ParseIntOfIntToString(book.pages.value, Auto);
      IntToStringShape(book.pages.value);
    }
  }

  /** `setErrors(prev => ({ ...prev, [name]: fieldErrors[name] || '' }))`. */
  function BlurErrors(errors: map<Field, string>, reported: map<Field, string>, name: Field): map<Field, string> {
    errors[name := if name in reported then reported[name] else ""]
  }

  /**
   * After a blur the field's error is exactly what the validator reports for
   * it, `''` when nothing: an error the field showed before is cleared once
   * the field passes. Other fields' errors are untouched.
   */
  lemma BlurWritesReportedError(errors: map<Field, string>, reported: map<Field, string>, name: Field)
    ensures var r := BlurErrors(errors, reported, name);
      name in r && (r[name] != "" <==> name in reported && reported[name] != "") &&
      (name !in reported ==> r[name] == "") &&
      (forall k :: k != name ==> (k in r <==> k in errors)) &&
      (forall k :: k != name && k in errors ==> r[k] == errors[k])
  {
  }

  /** The two forms differ on a blur that passes: the older form clears the error, the current one keeps it. */
  lemma BlurClearsWhereCurrentFormKeeps(message: string)
    requires message != ""
    ensures BlurErrors(map[Title := message], map[], Title)[Title] == ""
    ensures BookForm.BlurErrors(map[Title := message], map[], Title)[Title] == message
  {
  }

  /**
   * `inputClassName` follows the same rule as the current form's `inputClass`
   * (`BookForm.ShowsError`). After a blur, the field is painted as errored
   * exactly when the validator reports a message for it.
   */
  lemma BlurShowsIffReported(errors: map<Field, string>, touched: map<Field, bool>, reported: map<Field, string>, name: Field)
    ensures BookForm.ShowsError(BlurErrors(errors, reported, name), touched[name := true], name)
      <==> name in reported && reported[name] != ""
  {
  }

  /* ---------------------------------------------------------------- the form's state */

  class Form {
    var formData: FormData
    var errors: map<Field, string>
    var touched: map<Field, bool>
    /** Every payload passed to `onSubmit`, oldest first. */
    var submitted: seq<BookFormData>

    constructor()
      ensures formData == EmptyForm
      ensures errors == map[] && touched == map[] && submitted == []
    {
      formData := EmptyForm;
      errors := map[];
      touched := map[];
      submitted := [];
    }

    /** The hydration effect: a given book overwrites every input. */
    method Hydrate(book: Option<Book>)
      modifies this
      ensures book.Some? ==> formData == HydratedFields(book.value)
      ensures book.None? ==> formData == old(formData)
      ensures errors == old(errors) && touched == old(touched) && submitted == old(submitted)
    {
      if book.Some? {
        formData := HydratedFields(book.value);
      }
    }

    /** `handleChange`: writes the named input, and blanks that field's error if it was set. */
    method HandleChange(name: Field, value: string)
      requires name in FormFields
      modifies this
      ensures formData == old(formData).With(name, value)
      ensures errors == (if name in old(errors) && old(errors)[name] != "" then old(errors)[name := ""] else old(errors))
      ensures !BookForm.ShowsError(errors, touched, name)
      ensures touched == old(touched) && submitted == old(submitted)
    {
      formData := formData.With(name, value);
      if name in errors && errors[name] != "" {
        errors := errors[name := ""];
      }
    }

    /** `handleBlur`: marks the field touched and writes the validator's verdict on it, `''` when it passes. */
    method HandleBlur(name: Field, validate: FormData -> map<Field, string>)
      modifies this
      ensures touched == old(touched)[name := true]
      ensures errors == BlurErrors(old(errors), validate(formData), name)
      ensures formData == old(formData) && submitted == old(submitted)
    {
      touched := touched[name := true];
      var fieldErrors := validate(formData);
      errors := errors[name := if name in fieldErrors then fieldErrors[name] else ""];
    }

    /**
     * `handleSubmit`: the validator's result replaces every error, and the
     * payload is passed on only when that result has no key. A rejected
     * `onSubmit` is caught and only logged.
     */
    method HandleSubmit(validate: FormData -> map<Field, string>)
      modifies this
      ensures errors == validate(formData)
      ensures submitted == old(submitted) + (if HasValidationErrors(errors) then [] else [Payload(formData)])
      ensures formData == old(formData) && touched == old(touched)
    {
      var validationErrors := validate(formData);
      errors := validationErrors;
      if !HasValidationErrors(validationErrors) {
        var payload := Payload(formData);
        submitted := submitted + [payload];
      }
    }
  }
}
