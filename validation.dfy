/**
 * Field validation of a book form (Frontend/src/utils/validation.ts).
 *
 * `ValidateBook` runs the source's six rule blocks in turn, each one a method
 * that conditionally sets its field's message, and assembles their results
 * into the error record. `BookErrors` is the same result stated key by key: a
 * key is present exactly when its own field's rule reports a message. The
 * "current year" of the source's clock is a parameter.
 */
module Validation {
  import opened Wrappers
  import opened JsText

  /** A value of a form field: text typed into an input, or a number. */
  datatype JsValue = Text(text: string) | Number(num: Num)

  /**
   * `BookFormData`. Both names of the genre field (`genre`, `bookType` for the
   * source's `type`) and of the cover field (`coverUrl`, `coverImageURL`) are
   * carried, as the two generations of the form use different ones.
   */
  datatype BookFormData = BookFormData(
    title: string,
    author: string,
    year: JsValue,
    isbn: Option<string>,
    description: Option<string>,
    genre: Option<string>,
    bookType: Option<string>,
    pages: Option<JsValue>,
    publisher: Option<string>,
    coverUrl: Option<string>,
    coverImageURL: Option<string>)

  /**
   * The names of the form's fields; `Name` gives the key the source uses. The
   * validator reports on six of them, the forms edit the others as well.
   */
  datatype Field =
    | Title | Author | Year | Isbn | Description | Genre | Type | Pages | Publisher | CoverUrl | CoverImageURL
  {
    function Name(): string {
      match this
      case Title => "title"
      case Author => "author"
      case Year => "year"
      case Isbn => "isbn"
      case Description => "description"
      case Genre => "genre"
      case Type => "type"
      case Pages => "pages"
      case Publisher => "publisher"
      case CoverUrl => "coverUrl"
      case CoverImageURL => "coverImageURL"
    }
  }

  /**
   * The validator's error object. It can only ever hold the six keys the
   * rules write, so it is a record of six optional messages; an absent
   * message is an absent key.
   */
  datatype ValidationErrors = ValidationErrors(
    title: Option<Message>,
    author: Option<Message>,
    year: Option<Message>,
    isbn: Option<Message>,
    pages: Option<Message>,
    bookType: Option<Message>)
  {
    /** `errors[key]`, if the key is present. */
    function Lookup(key: Field): Option<Message> {
      match key
      case Title => title
      case Author => author
      case Year => year
      case Isbn => isbn
      case Pages => pages
      case Type => bookType
      case _ => None
    }

    /** `Object.keys(errors)`: the fields holding a message, whatever the message. */
    function Keys(): (r: set<Field>)
      ensures forall k :: k in r <==> Lookup(k).Some?
      ensures r <= FieldKeys
    {
      (if title.Some? then {Title} else {}) + (if author.Some? then {Author} else {}) +
      (if year.Some? then {Year} else {}) + (if isbn.Some? then {Isbn} else {}) +
      (if pages.Some? then {Pages} else {}) + (if bookType.Some? then {Type} else {})
    }

    /** The record as the form keeps it: a map from field to message text. */
    function ToMap(): (m: map<Field, string>)
      ensures forall k :: k in m <==> Lookup(k).Some?
      ensures forall k :: k in m ==> m[k] == Lookup(k).value.Text()
    {
      map k | k in Keys() :: Lookup(k).value.Text()
    }
  }

  /** No key at all: `{}`. */
  const NoErrors := ValidationErrors(None, None, None, None, None, None)

  /** The validator's messages; `Text` is the exact wording shown to the user. */
  datatype Message =
    | TitleRequired | TitleTooShort
    | AuthorRequired | AuthorTooShort
    | YearRequired | YearOutOfRange(maxYear: int)
    | InvalidIsbn
    | PagesNotPositive
    | TypeRequired | TypeTooShort
  {
    function Text(): string {
      match this
      case TitleRequired => "Title is required"
      case TitleTooShort => "Title must be at least 2 characters long"
      case AuthorRequired => "Author is required"
      case AuthorTooShort => "Author name must be at least 2 characters long"
      case YearRequired => "Publication year is required"
      case YearOutOfRange(maxYear) => "Year must be between 1000 and " + IntToString(maxYear)
      case InvalidIsbn => "Invalid ISBN format"
      case PagesNotPositive => "Pages must be a positive number"
      case TypeRequired => "Type is required"
      case TypeTooShort => "Type must be at least 2 characters long"
    }
  }

  /** Every message is non-empty text, so a reported key always reads as truthy. */
  lemma MessageTextNonEmpty(m: Message)
    ensures |m.Text()| > 0
  {
  }

  /** The keys the validator can report. */
  const FieldKeys: set<Field> := {Title, Author, Year, Isbn, Pages, Type}

  /* ---------------------------------------------------------------- one rule per field */

  /** Title: required, and at least two UTF-16 code units (`length`) once trimmed. */
  function CheckTitle(title: string): Option<Message>
  {
    var t := Trim(title);
    if t == [] then Some(TitleRequired) else if Utf16Length(t) < 2 then Some(TitleTooShort) else None
  }

  /** Author: the same two tiers as the title, with its own messages. */
  function CheckAuthor(author: string): Option<Message>
  {
    var t := Trim(author);
    if t == [] then Some(AuthorRequired) else if Utf16Length(t) < 2 then Some(AuthorTooShort) else None
  }

  /** The number a form value stands for: text is read by `parseInt(_, 10)`. */
  function NumberOf(v: JsValue): Num {
    match v
    case Text(s) => ParseInt(s, Decimal)
    case Number(n) => n
  }

  /** Year: required; otherwise a number in [1000, currentYear + 1]. */
  function CheckYear(year: JsValue, currentYear: int): Option<Message>
  {
    if year == Text("") then Some(YearRequired)
    else
      var y := NumberOf(year);
      if y.NaN? || y.value < 1000 || y.value > currentYear + 1 then Some(YearOutOfRange(currentYear + 1))
      else None
  }

  /** The separators an ISBN may contain: hyphens and whitespace. */
  predicate IsIsbnSeparator(c: char) {
    c == '-' || IsJsSpace(c)
  }

  /** `isbn.replace(/[-\s]/g, '')`: every separator deleted, the rest kept in order. */
  function RemoveSeparators(isbn: string): (r: string)
    ensures |r| <= |isbn|
    ensures forall i :: 0 <= i < |r| ==> !IsIsbnSeparator(r[i])
  {
    if isbn == [] then []
    else (if IsIsbnSeparator(isbn[0]) then [] else [isbn[0]]) + RemoveSeparators(isbn[1..])
  }

  /** Removing separators from a concatenation removes them from each part. */
  lemma {:induction false} RemoveSeparatorsAppend(a: string, b: string)
    ensures RemoveSeparators(a + b) == RemoveSeparators(a) + RemoveSeparators(b)
  {
    if a == [] {
      assert a + b == b;
    } else {
      assert (a + b)[1..] == a[1..] + b;
      RemoveSeparatorsAppend(a[1..], b);
    }
  }

  /** Nine decimal digits followed by a digit or an upper-case `X`. */
  predicate IsbnCore(c: string) {
    |c| == 10 && (forall i :: 0 <= i < 9 ==> IsDecimalDigit(c[i])) && (IsDecimalDigit(c[9]) || c[9] == 'X')
  }

  /** The pattern `^(?:(?:97[89])?\d{9}[\dX])$`. No check digit is computed. */
  predicate MatchesIsbnPattern(c: string) {
    IsbnCore(c) || (|c| == 13 && c[..2] == "97" && (c[2] == '8' || c[2] == '9') && IsbnCore(c[3..]))
  }

  /** ISBN: checked only when present and not blank; separators are ignored. */
  function CheckIsbn(isbn: Option<string>): Option<Message>
  {
    if isbn.Some? && Trim(isbn.value) != [] && !MatchesIsbnPattern(RemoveSeparators(isbn.value))
    then Some(InvalidIsbn)
    else None
  }

  /** Pages: checked only when present and not `''`; must read as a number of at least 1. */
  function CheckPages(pages: Option<JsValue>): Option<Message>
  {
    if pages.Some? && pages.value != Text("") then
      var p := NumberOf(pages.value);
      if p.NaN? || p.value < 1 then Some(PagesNotPositive) else None
    else None
  }

  /** Type: required (absent and blank alike), and at least two UTF-16 code units once trimmed. */
  function CheckType(bookType: Option<string>): Option<Message>
  {
    if bookType == None || Trim(bookType.value) == [] then Some(TypeRequired)
    else if Utf16Length(Trim(bookType.value)) < 2 then Some(TypeTooShort)
    else None
  }

  /** The validator's result: each field's rule, under that field's key. */
  function BookErrors(d: BookFormData, currentYear: int): ValidationErrors {
    ValidationErrors(CheckTitle(d.title), CheckAuthor(d.author), CheckYear(d.year, currentYear),
      CheckIsbn(d.isbn), CheckPages(d.pages), CheckType(d.bookType))
  }

  /* ---------------------------------------------------------------- the validator */

  /**
   * `validateBook`: every rule runs in turn, each writing its own key of the
   * error object at most once. Each rule's block is a method of its own, and
   * the six keys are assembled into the record at the end.
   */
  method ValidateBook(data: BookFormData, currentYear: int) returns (errors: ValidationErrors)
    ensures errors == BookErrors(data, currentYear)
  {
    var titleError := TitleRule(data.title);
    var authorError := AuthorRule(data.author);
    var yearError := YearRule(data.year, currentYear);
    var isbnError := IsbnRule(data.isbn);
    var pagesError := PagesRule(data.pages);
    var typeError := TypeRule(data.bookType);
    errors := ValidationErrors(titleError, authorError, yearError, isbnError, pagesError, typeError);
  }

  /** The title block of `validateBook`. */
  method TitleRule(value: string) returns (message: Option<Message>)
    ensures message == CheckTitle(value)
  {
    message := None;
    var title := Trim(value);
    if title == [] {
      message := Some(TitleRequired);
    } else if Utf16Length(title) < 2 {
      message := Some(TitleTooShort);
    }
  }

  /** The author block of `validateBook`. */
  method AuthorRule(value: string) returns (message: Option<Message>)
    ensures message == CheckAuthor(value)
  {
    message := None;
    var author := Trim(value);
    if author == [] {
      message := Some(AuthorRequired);
    } else if Utf16Length(author) < 2 {
      message := Some(AuthorTooShort);
    }
  }

  /** The year block of `validateBook`. */
  method YearRule(value: JsValue, currentYear: int) returns (message: Option<Message>)
    ensures message == CheckYear(value, currentYear)
  {
    message := None;
    if value == Text("") {
      message := Some(YearRequired);
    } else {
      var year := NumberOf(value);
      if year.NaN? || year.value < 1000 || year.value > currentYear + 1 {
        message := Some(YearOutOfRange(currentYear + 1));
      }
    }
  }

  /** The ISBN block of `validateBook`. */
  method IsbnRule(value: Option<string>) returns (message: Option<Message>)
    ensures message == CheckIsbn(value)
  {
    message := None;
    if value.Some? && Trim(value.value) != [] {
      var clean := RemoveSeparators(value.value);
      if !MatchesIsbnPattern(clean) {
        message := Some(InvalidIsbn);
      }
    }
  }

  /** The pages block of `validateBook`. */
  method PagesRule(value: Option<JsValue>) returns (message: Option<Message>)
    ensures message == CheckPages(value)
  {
    message := None;
    if value.Some? && value.value != Text("") {
      var pages := NumberOf(value.value);
      if pages.NaN? || pages.value < 1 {
        message := Some(PagesNotPositive);
      }
    }
  }

  /** The type block of `validateBook`. */
  method TypeRule(value: Option<string>) returns (message: Option<Message>)
    ensures message == CheckType(value)
  {
    message := None;
    if value == None || Trim(value.value) == [] {
      message := Some(TypeRequired);
    } else if Utf16Length(Trim(value.value)) < 2 {
      message := Some(TypeTooShort);
    }
  }

  /**
   * `hasValidationErrors`, on any error object: some key is present, whatever
   * its message (even `''`).
   */
  function HasValidationErrors(errors: map<Field, string>): (r: bool)
    ensures r <==> exists k :: k in errors
  {
    |errors.Keys| > 0
  }

  /** On the validator's own result, there are errors exactly when some rule reported one. */
  lemma HasErrorsIffSomeMessage(errors: ValidationErrors)
    ensures HasValidationErrors(errors.ToMap()) <==> errors != NoErrors
  {
    if errors != NoErrors {
      var k :| k in FieldKeys && errors.Lookup(k).Some?;
      assert k in errors.ToMap();
    }
  }

  /* ---------------------------------------------------------------- properties */

  /** Each key's message is its own field's rule, so it depends on that field (and the year) alone. */
  lemma ValidationIsLocal(d: BookFormData, e: BookFormData, currentYear: int, k: Field)
    requires k == Title ==> d.title == e.title
    requires k == Author ==> d.author == e.author
    requires k == Year ==> d.year == e.year
    requires k == Isbn ==> d.isbn == e.isbn
    requires k == Pages ==> d.pages == e.pages
    requires k == Type ==> d.bookType == e.bookType
    ensures BookErrors(d, currentYear).Lookup(k) == BookErrors(e, currentYear).Lookup(k)
  {
  }

  /** The trimmed text is one character that is a single UTF-16 code unit. */
  predicate OneCodeUnit(t: string) {
    |t| == 1 && !IsAstral(t[0])
  }

  /**
   * Title and author: "required" when blank once trimmed, "too short" when
   * the trimmed text is one character of the Basic Multilingual Plane, and
   * accepted otherwise, so a single character outside it (two code units)
   * passes.
   */
  lemma TitleAndAuthorRules(d: BookFormData, currentYear: int)
    ensures BookErrors(d, currentYear).title ==
      (if Trim(d.title) == [] then Some(TitleRequired) else if OneCodeUnit(Trim(d.title)) then Some(TitleTooShort) else None)
    ensures BookErrors(d, currentYear).author ==
      (if Trim(d.author) == [] then Some(AuthorRequired) else if OneCodeUnit(Trim(d.author)) then Some(AuthorTooShort) else None)
  {
    Utf16LengthBelowTwo(Trim(d.title));
    Utf16LengthBelowTwo(Trim(d.author));
  }

  /**
   * Type: an absent type is reported as missing like a blank one; a present
   * one follows the title's two tiers, with the type's own messages.
   */
  lemma TypeRuleTiers(d: BookFormData, currentYear: int)
    ensures BookErrors(d, currentYear).bookType == None <==>
      d.bookType.Some? && Trim(d.bookType.value) != [] && !OneCodeUnit(Trim(d.bookType.value))
    ensures d.bookType == None ==> BookErrors(d, currentYear).bookType == Some(TypeRequired)
    ensures d.bookType.Some? ==>
      (BookErrors(d, currentYear).bookType == Some(TypeRequired) <==> CheckTitle(d.bookType.value) == Some(TitleRequired)) &&
      (BookErrors(d, currentYear).bookType == Some(TypeTooShort) <==> CheckTitle(d.bookType.value) == Some(TitleTooShort))
  {
    if d.bookType.Some? {
      Utf16LengthBelowTwo(Trim(d.bookType.value));
    }
  }

  /**
   * Lengths are JavaScript's, in UTF-16 code units: a single character
   * outside the Basic Multilingual Plane (a book emoji, U+1F4DA) is two code
   * units long and passes the title, author and type rules, while a single
   * letter is too short.
   */
  lemma AstralCharacterLongEnough()
    ensures CheckTitle("\U{1F4DA}") == None
    ensures CheckAuthor("\U{1F4DA}") == None
    ensures CheckType(Some("\U{1F4DA}")) == None
    ensures CheckTitle("a") == Some(TitleTooShort)
  {
    TrimUntouched("\U{1F4DA}", JsSpace);
    TrimUntouched("a", JsSpace);
  }

  /** The year bounds are inclusive at both ends, and a non-number is rejected. */
  lemma YearBoundaries(currentYear: int)
    ensures CheckYear(Number(Int(1000)), currentYear) == None <==> currentYear >= 999
    ensures CheckYear(Number(Int(999)), currentYear) == Some(YearOutOfRange(currentYear + 1))
    ensures CheckYear(Number(Int(currentYear + 1)), currentYear) == None <==> currentYear >= 999
    ensures CheckYear(Number(Int(currentYear + 2)), currentYear) == Some(YearOutOfRange(currentYear + 1))
    ensures CheckYear(Text("abc"), currentYear) == Some(YearOutOfRange(currentYear + 1))
    ensures CheckYear(Text(""), currentYear) == Some(YearRequired)
  {
    assert DigitPrefixLength("abc", 10) == 0;
  }

  /** Pages: 0 is rejected, 1 accepted, an absent or empty value accepted. */
  lemma PagesBoundaries()
    ensures CheckPages(Some(Number(Int(0)))) == Some(PagesNotPositive)
    ensures CheckPages(Some(Number(Int(1)))) == None
    ensures CheckPages(None) == None && CheckPages(Some(Text(""))) == None
  {
  }

  /** A string without separators is its own cleaned form. */
  lemma {:induction false} RemoveSeparatorsUntouched(s: string)
    requires forall i :: 0 <= i < |s| ==> !IsIsbnSeparator(s[i])
    ensures RemoveSeparators(s) == s
  {
    if s != [] {
      RemoveSeparatorsUntouched(s[1..]);
    }
  }

  /** Without separators, a non-empty ISBN is accepted exactly when it matches the pattern itself. */
  lemma CleanIsbnChecked(isbn: string)
    requires forall i :: 0 <= i < |isbn| ==> !IsIsbnSeparator(isbn[i])
    ensures CheckIsbn(Some(isbn)) == None <==> isbn == [] || MatchesIsbnPattern(isbn)
  {
    RemoveSeparatorsUntouched(isbn);
    if isbn != [] {
      TrimUntouched(isbn, JsSpace);
    }
  }

  /** A separator inserted anywhere into a non-blank ISBN changes nothing. */
  lemma SeparatorIgnored(a: string, b: string, c: char)
    requires IsIsbnSeparator(c) && Trim(a + b) != []
    ensures CheckIsbn(Some(a + [c] + b)) == CheckIsbn(Some(a + b))
  {
    var s := a + [c] + b;
    RemoveSeparatorsAppend(a + [c], b);
    RemoveSeparatorsAppend(a, [c]);
    RemoveSeparatorsAppend(a, b);
    assert RemoveSeparators([c]) == [];
    assert RemoveSeparators(s) == RemoveSeparators(a + b);
    TrimByBlank(a + b, JsSpace);
    TrimByBlank(s, JsSpace);
    var k :| 0 <= k < |a + b| && !IsSpace((a + b)[k], JsSpace);
    var j := if k < |a| then k else k + 1;
    assert s[j] == (a + b)[k];
    assert Trim(s) != [];
  }

  /** The sample ISBN `9780441172719` matches the pattern: `978` followed by ten digits. */
  lemma SampleIsbnMatches()
    ensures MatchesIsbnPattern("9780441172719")
  {
    assert "9780441172719"[3..] == "0441172719";
  }

  /** A plain ISBN-13 passes. */
  lemma IsbnThirteenDigitsPasses()
    ensures CheckIsbn(Some("9780441172719")) == None
  {
    CleanIsbnChecked("9780441172719");
    SampleIsbnMatches();
  }

  /** A three-digit number fails. */
  lemma IsbnTooShortFails()
    ensures CheckIsbn(Some("123")) == Some(InvalidIsbn)
  {
    CleanIsbnChecked("123");
  }

  /** An error record with a key counts as errors even when its message is empty. */
  lemma EmptyMessageStillCounts()
    ensures HasValidationErrors(map[Title := ""])
    ensures !HasValidationErrors(map[])
  {
    assert Title in map[Title := ""];
  }

  /** The all-valid sample record: `Dune`, Frank Herbert, 1965, ISBN 9780441172719, 412 pages, a novel. */
  const SampleBook := BookFormData("Dune", "Frank Herbert", Number(Int(1965)), Some("9780441172719"),
    None, None, Some("Novel"), Some(Number(Int(412))), None, None, None)

  /** Text with nothing to trim and two or more characters is its own trimmed form, at least two code units long. */
  lemma LongTextUntrimmed(t: string)
    requires t != [] && !IsJsSpace(t[0]) && !IsJsSpace(t[|t| - 1]) && |t| >= 2
    ensures Trim(t) == t && Utf16Length(t) >= 2
  {
    TrimUntouched(t, JsSpace);
  }

  /** The sample's title passes its rule. */
  lemma SampleTitlePasses()
    ensures CheckTitle(SampleBook.title) == None
  {
    LongTextUntrimmed("Dune");
  }

  /** The sample's author passes its rule. */
  lemma SampleAuthorPasses()
    ensures CheckAuthor(SampleBook.author) == None
  {
    LongTextUntrimmed("Frank Herbert");
  }

  /** The sample's type passes its rule. */
  lemma SampleTypePasses()
    ensures CheckType(SampleBook.bookType) == None
  {
    LongTextUntrimmed("Novel");
  }

  /** The sample yields `{}` (for any current year from 1964 on). */
  lemma SampleRecordPasses(currentYear: int)
    requires currentYear >= 1964
    ensures BookErrors(SampleBook, currentYear) == NoErrors
  {
    SampleTitlePasses();
    SampleAuthorPasses();
    SampleTypePasses();
    IsbnThirteenDigitsPasses();
  }

  /** The sample yields `{}` (for any current year from 1964 on), so it has no errors. */
  lemma ValidSampleHasNoErrors(currentYear: int)
    requires currentYear >= 1964
    ensures BookErrors(SampleBook, currentYear) == NoErrors
    ensures !HasValidationErrors(BookErrors(SampleBook, currentYear).ToMap())
  {
    SampleRecordPasses(currentYear);
    HasErrorsIffSomeMessage(BookErrors(SampleBook, currentYear));
  }
}
