/**
 * The add/edit form of the current client (Frontend/src/components/forms/BookForm.tsx),
 * without its markup: the genre ("type") options, the hydration from a book,
 * the three handlers over the `formData`, `errors` and `touched` records, the
 * payload handed to `onSubmit`, and the rule that paints a field as errored.
 *
 * `formData` is a record of the nine inputs, read and written by field name;
 * `errors` and `touched` are maps keyed by field. The current year of the
 * validator is a parameter.
 */
module BookForm {
  import opened Wrappers
  import opened JsText
  import opened Seqs
  import opened BooksContext
  import opened Validation

  /** The form's inputs, by `name`. */
  const FormFields: set<Field> := {Title, Author, Year, Isbn, Description, Type, Pages, Publisher, CoverImageURL}

  /** `formData`: the text of every input. */
  datatype FormData = FormData(
    title: string, author: string, year: string, isbn: string, description: string,
    bookType: string, pages: string, publisher: string, coverImageURL: string)
  {
    /** `formData[name]`; a name the form has no input for reads as `''`. */
    function Get(name: Field): string {
      match name
      case Title => title
      case Author => author
      case Year => year
      case Isbn => isbn
      case Description => description
      case Type => bookType
      case Pages => pages
      case Publisher => publisher
      case CoverImageURL => coverImageURL
      case _ => ""
    }

    /** `{ ...formData, [name]: value }`: the named input changes and no other. */
    function With(name: Field, value: string): (r: FormData)
      requires name in FormFields
      ensures r.Get(name) == value
      ensures forall f :: f != name ==> r.Get(f) == Get(f)
    {
      match name
      case Title => this.(title := value)
      case Author => this.(author := value)
      case Year => this.(year := value)
      case Isbn => this.(isbn := value)
      case Description => this.(description := value)
      case Type => this.(bookType := value)
      case Pages => this.(pages := value)
      case Publisher => this.(publisher := value)
      case CoverImageURL => this.(coverImageURL := value)
    }
  }

  /** The initial `formData`: every input empty. */
  const EmptyForm := FormData("", "", "", "", "", "", "", "", "")

  /* ---------------------------------------------------------------- type options */

  /** `books.map(b => b.type).filter(t => Boolean(t && t.trim()))`. */
  function NonBlankTypes(books: seq<Book>): (r: seq<string>)
    ensures forall i :: 0 <= i < |r| ==> Trim(r[i]) != []
  {
    if books == [] then []
    else
      var t := books[0].bookType;
      (if t.Some? && Trim(t.value) != [] then [t.value] else []) + NonBlankTypes(books[1..])
  }

  /** Some book carries `t` as its type, and `t` is not blank. */
  predicate IsStoredType(books: seq<Book>, t: string) {
    Trim(t) != [] && exists i :: 0 <= i < |books| && books[i].bookType == Some(t)
  }

  /** The non-blank types are exactly the types the books carry that are not blank. */
  lemma {:induction false} NonBlankTypesMembership(books: seq<Book>, t: string)
    ensures t in NonBlankTypes(books) <==> IsStoredType(books, t)
  {
    if books != [] {
      NonBlankTypesMembership(books[1..], t);
      if IsStoredType(books[1..], t) {
        var i :| 0 <= i < |books[1..]| && books[1..][i].bookType == Some(t);
        assert books[i + 1].bookType == Some(t);
      }
      if IsStoredType(books, t) && books[0].bookType != Some(t) {
        var i :| 0 <= i < |books| && books[i].bookType == Some(t);
        assert books[1..][i - 1].bookType == Some(t);
      }
    }
  }

  /** The list offered when no book has a type. */
  const FallbackTypes: seq<string> := [
    "Fiction", "Non-Fiction", "Mystery", "Romance", "Science Fiction",
    "Fantasy", "Biography", "History", "Self-Help", "Business"]

  /** `uniqueTypes.length ? uniqueTypes : fallbackTypes`, with `uniqueTypes` de-duplicated through a `Set`. */
  function TypeOptions(books: seq<Book>): (r: seq<string>)
    ensures |r| > 0
  {
    var unique := Distinct(NonBlankTypes(books));
    if |unique| > 0 then unique else FallbackTypes
  }

  /**
   * When some book has a type, the options are the distinct stored types, each
   * once, in the order of their first appearance (`Distinct`).
   */
  lemma TypeOptionsFromBooks(books: seq<Book>, t: string)
    requires IsStoredType(books, t)
    ensures TypeOptions(books) == Distinct(NonBlankTypes(books))
    ensures forall u :: u in TypeOptions(books) <==> IsStoredType(books, u)
    ensures NoDuplicates(TypeOptions(books))
  {
    NonBlankTypesMembership(books, t);
    assert t in Distinct(NonBlankTypes(books));
    forall u ensures u in Distinct(NonBlankTypes(books)) <==> IsStoredType(books, u) {
      NonBlankTypesMembership(books, u);
    }
  }

  /** When no book has a type, the ten fixed genres are offered. */
  lemma TypeOptionsFallback(books: seq<Book>)
    requires forall t :: !IsStoredType(books, t)
    ensures TypeOptions(books) == FallbackTypes && |FallbackTypes| == 10
  {
    var unique := Distinct(NonBlankTypes(books));
    if |unique| > 0 {
      NonBlankTypesMembership(books, unique[0]);
    }
  }

  /* ---------------------------------------------------------------- hydration and payload */

  /** `x?.toString() || ''` for an optional number. */
  function NumberText(n: Option<int>): string {
    if n.Some? then IntToString(n.value) else ""
  }

  /** The hydration effect's record for `book`: each value as text, `''` when absent. */
  function HydratedFields(book: Book): FormData {
    FormData(book.title, book.author, IntToString(book.year), book.isbn.GetOr(""),
      book.description.GetOr(""), book.bookType.GetOr(""), NumberText(book.pages),
      book.publisher.GetOr(""), book.coverImageURL.GetOr(""))
  }

  /** What the validator receives: `formData` as it is, every value text. */
  function FormRecord(fd: FormData): BookFormData {
    BookFormData(fd.title, fd.author, Text(fd.year), Some(fd.isbn), Some(fd.description), None,
      Some(fd.bookType), Some(Text(fd.pages)), Some(fd.publisher), None, Some(fd.coverImageURL))
  }

  /** `s || undefined`. */
  function OptionalText(s: string): (r: Option<string>)
    ensures r == None <==> s == ""
    ensures r.Some? ==> r.value == s
  {
    if s == "" then None else Some(s)
  }

  /** `parseInt(s) || 0`: NaN and 0 both become 0. */
  function YearPayload(s: string): (n: Num)
    ensures n.Int?
    ensures NumTruthy(ParseInt(s, Auto)) ==> n == ParseInt(s, Auto)
    ensures !NumTruthy(ParseInt(s, Auto)) ==> n == Int(0)
  {
    var n := ParseInt(s, Auto);
    if NumTruthy(n) then n else Int(0)
  }

  /** `s ? parseInt(s) : undefined`. */
  function PagesPayload(s: string): (r: Option<JsValue>)
    ensures r == None <==> s == ""
    ensures r.Some? ==> r.value == Number(ParseInt(s, Auto))
  {
    if s != "" then Some(Number(ParseInt(s, Auto))) else None
  }

  /** The record `handleSubmit` passes to `onSubmit`: title and author untrimmed, empty optionals dropped. */
  function Payload(fd: FormData): BookFormData {
    BookFormData(fd.title, fd.author, Number(YearPayload(fd.year)), OptionalText(fd.isbn),
      OptionalText(fd.description), None, OptionalText(fd.bookType), PagesPayload(fd.pages),
      OptionalText(fd.publisher), None, OptionalText(fd.coverImageURL))
  }

  /** An optional string with `''` read as absent. */
  function NonEmpty(s: Option<string>): Option<string> {
    if s.Some? && s.value != "" then s else None
  }

  /**
   * Editing a book without touching the form submits the book back: title,
   * author, year and pages as they were, every non-empty optional text as it
   * was, an empty one as absent.
   */
  lemma PayloadOfHydrated(book: Book)
    ensures var p := Payload(HydratedFields(book));
      p.title == book.title && p.author == book.author && p.year == Number(Int(book.year)) &&
      p.pages == (if book.pages.Some? then Some(Number(Int(book.pages.value))) else None) &&
      p.isbn == NonEmpty(book.isbn) && p.description == NonEmpty(book.description) &&
      p.bookType == NonEmpty(book.bookType) && p.publisher == NonEmpty(book.publisher) &&
      p.coverImageURL == NonEmpty(book.coverImageURL)
  {
    ParseIntOfIntToString(book.year, Auto);
    if book.pages.Some? {
      ParseIntOfIntToString(book.pages.value, Auto);
      IntToStringShape(book.pages.value);
    }
  }

  /** A year text without digits, and `"0"`, are both submitted as 0. */
  lemma YearPayloadZero()
    ensures YearPayload("") == Int(0)
    ensures YearPayload("0") == Int(0)
  {
    ParseIntBlank("", Auto);
    assert DigitPrefixLength("0", 10) == 1;
  }

  /* ---------------------------------------------------------------- errors */

  /** The validator's verdict on the form, keyed by field. */
  function Reported(fd: FormData, currentYear: int): map<Field, string> {
    BookErrors(FormRecord(fd), currentYear).ToMap()
  }

  /** Runs the validator over the form. */
  method Validate(fd: FormData, currentYear: int) returns (reported: map<Field, string>)
    ensures reported == Reported(fd, currentYear)
  {
    var fieldErrors := ValidateBook(FormRecord(fd), currentYear);
    reported := fieldErrors.ToMap();
  }

  /** Every reported message has text, so a reported field is always shown as errored once touched. */
  lemma ReportedMessagesNonEmpty(fd: FormData, currentYear: int)
    ensures forall k :: k in Reported(fd, currentYear) ==> Reported(fd, currentYear)[k] != ""
  {
    var errors := BookErrors(FormRecord(fd), currentYear);
    forall k | k in Reported(fd, currentYear) ensures Reported(fd, currentYear)[k] != "" {
      MessageTextNonEmpty(errors.Lookup(k).value);
    }
  }

  /** `if (fieldErrors[name]) setErrors(prev => ({ ...prev, [name]: fieldErrors[name] }))`. */
  function BlurErrors(errors: map<Field, string>, reported: map<Field, string>, name: Field): map<Field, string> {
    if name in reported && reported[name] != "" then errors[name := reported[name]] else errors
  }

  /**
   * A blur shows the validator's message for the blurred field, touches no
   * other field's error, and never clears an error.
   */
  lemma BlurKeepsOtherErrors(errors: map<Field, string>, reported: map<Field, string>, name: Field)
    ensures var r := BlurErrors(errors, reported, name);
      (name in reported && reported[name] != "" ==> name in r && r[name] == reported[name]) &&
      (forall k :: k != name ==> (k in r <==> k in errors)) &&
      (forall k :: k != name && k in errors ==> r[k] == errors[k]) &&
      (forall k :: k in errors && errors[k] != "" ==> k in r && r[k] != "")
  {
  }

  /** `inputClass`: a field is painted red when it has a non-empty error and has been touched. */
  predicate ShowsError(errors: map<Field, string>, touched: map<Field, bool>, field: Field) {
    field in errors && errors[field] != "" && field in touched && touched[field]
  }

  /** After a blur on a field the validator rejects, that field is painted as errored. */
  lemma BlurShowsReportedError(errors: map<Field, string>, touched: map<Field, bool>, fd: FormData, currentYear: int, name: Field)
    requires name in Reported(fd, currentYear)
    ensures ShowsError(BlurErrors(errors, Reported(fd, currentYear), name), touched[name := true], name)
  {
    ReportedMessagesNonEmpty(fd, currentYear);
  }

  /* ---------------------------------------------------------------- the form's state */

  class Form {
    var formData: FormData
    var errors: map<Field, string>
    var touched: map<Field, bool>
    /** Every payload passed to `onSubmit`, oldest first. */
    var submitted: seq<BookFormData>

    constructor()
      ensures formData == EmptyForm
      ensures errors == map[] && touched == map[] && submitted == []
    {
      formData := EmptyForm;
      errors := map[];
      touched := map[];
      submitted := [];
    }

    /** The hydration effect: a given book overwrites every input. */
    method Hydrate(book: Option<Book>)
      modifies this
      ensures book.Some? ==> formData == HydratedFields(book.value)
      ensures book.None? ==> formData == old(formData)
      ensures errors == old(errors) && touched == old(touched) && submitted == old(submitted)
    {
      if book.Some? {
        formData := HydratedFields(book.value);
      }
    }

    /** `handleChange`: writes the named input, and blanks that field's error if it was showing text. */
    method HandleChange(name: Field, value: string)
      requires name in FormFields
      modifies this
      ensures formData == old(formData).With(name, value)
      ensures errors == (if name in old(errors) && old(errors)[name] != "" then old(errors)[name := ""] else old(errors))
      ensures !ShowsError(errors, touched, name)
      ensures touched == old(touched) && submitted == old(submitted)
    {
      formData := formData.With(name, value);
      if name in errors && errors[name] != "" {
        errors := errors[name := ""];
      }
    }

    /** `handleBlur`: marks the field touched and shows the validator's message for it, if any. */
    method HandleBlur(name: Field, currentYear: int)
      modifies this
      ensures touched == old(touched)[name := true]
      ensures errors == BlurErrors(old(errors), Reported(formData, currentYear), name)
      ensures formData == old(formData) && submitted == old(submitted)
    {
      touched := touched[name := true];
      var fieldErrors := Validate(formData, currentYear);
      errors := BlurErrors(errors, fieldErrors, name);
    }

    /** `await onSubmit(payload)`: the parent receives the payload. */
    method Accept(payload: BookFormData)
      modifies this
      ensures submitted == old(submitted) + [payload]
      ensures formData == old(formData) && touched == old(touched) && errors == old(errors)
    {
      submitted := submitted + [payload];
    }

    /**
     * `handleSubmit`: the validator's result replaces every error, and the
     * payload is passed on only when that result has no key. A rejected
     * `onSubmit` is caught and only logged.
     */
    method HandleSubmit(currentYear: int)
      modifies this
      ensures errors == Reported(formData, currentYear)
      ensures submitted == old(submitted) + (if HasValidationErrors(errors) then [] else [Payload(formData)])
      ensures formData == old(formData) && touched == old(touched)
    {
      errors := Validate(formData, currentYear);
      if !HasValidationErrors(errors) {
        Accept(Payload(formData));
      }
    }
  }

  /** A submission goes through exactly when every rule passes. */
  lemma SubmitIffNoErrors(fd: FormData, currentYear: int)
    ensures !HasValidationErrors(Reported(fd, currentYear)) <==> BookErrors(FormRecord(fd), currentYear) == NoErrors
  {
    HasErrorsIffSomeMessage(BookErrors(FormRecord(fd), currentYear));
  }
}
