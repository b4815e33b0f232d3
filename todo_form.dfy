/**
 * The new-task form (src/components/TodoForm.tsx): the Yup title rule, the submit button's
 * enabled condition, the 50-unit input cap, and submit followed by reset.
 */
module TodoForm {
  import opened TodoTypes

  const MinTitleLength := 3
  const MaxTitleLength := 50

  /** A character's width in UTF-16 code units, the unit of JavaScript's `length`. */
  function Utf16Units(c: char): nat
  {
    if c as int < 0x1_0000 then 1 else 2
  }

  /** JavaScript's `s.length`. */
  function Utf16Length(s: string): (n: nat)
    ensures |s| <= n <= 2 * |s|
    ensures IsBmp(s) ==> n == |s|
  {
    if s == [] then 0 else Utf16Units(s[0]) + Utf16Length(s[1..])
  }

  predicate IsBmp(s: string)
  {
    forall i :: 0 <= i < |s| ==> s[i] as int < 0x1_0000
  }

  /** `required().min(3).max(50)`. */
  predicate TitleValid(title: string)
    ensures TitleValid(title) ==> 2 <= |title| <= MaxTitleLength
    ensures IsBmp(title) ==> (TitleValid(title) <==> MinTitleLength <= |title| <= MaxTitleLength)
  {
    title != "" && MinTitleLength <= Utf16Length(title) <= MaxTitleLength
  }

  datatype TitleError = Required | TooShort | TooLong

  function Message(e: TitleError): (m: string)
    ensures m != ""
  {
    match e
    case Required => "Please enter a task title"
    case TooShort => "Title must be at least 3 characters"
    case TooLong => "Title must be less than 50 characters"
  }

  /** The schema's verdict on a title: the first rule it breaks, in declaration order. */
  function ValidateTitle(title: string): (r: Option<TitleError>)
    ensures r == None <==> TitleValid(title)
    ensures r == Some(Required) <==> title == ""
    ensures r == Some(TooShort) ==> Utf16Length(title) < MinTitleLength
    ensures r == Some(TooLong) ==> Utf16Length(title) > MaxTitleLength
  {
    if title == "" then Some(Required)
    else if Utf16Length(title) < MinTitleLength then Some(TooShort)
    else if Utf16Length(title) > MaxTitleLength then Some(TooLong)
    else None
  }

  /** `formik.dirty`: the title differs from its initial value `''`. */
  predicate Dirty(title: string)
    ensures TitleValid(title) ==> Dirty(title)
  {
    title != ""
  }

  /**
   * `disabled={!formik.isValid || !formik.dirty}`, negated. Every valid title differs from the
   * empty initial value, so the button is enabled exactly on valid titles, never on the initial form.
   */
  predicate SubmitEnabled(title: string)
    ensures SubmitEnabled(title) <==> TitleValid(title)
  {
    TitleValid(title) && Dirty(title)
  }

  /** A title of exactly 50 is accepted, although the message speaks of "less than 50". */
  lemma FiftyIsAccepted(title: string)
    requires Utf16Length(title) == MaxTitleLength
    ensures TitleValid(title) && SubmitEnabled(title)
  {
  }

  /** A two-character title such as `ab` is refused with the minimum-length message. */
  lemma TwoCharactersRejected(title: string)
    requires |title| == 2 && IsBmp(title)
    ensures ValidateTitle(title) == Some(TooShort) && !SubmitEnabled(title)
  {
  }

  /** The help line: the error message once the field was touched, otherwise a blank. */
  function HelpText(touched: bool, title: string): (r: string)
    ensures r == " " <==> !touched || TitleValid(title)
    ensures touched && !TitleValid(title) ==> r == Message(ValidateTitle(title).value)
  {
    var e := ValidateTitle(title);
    if touched && e.Some? then Message(e.value) else " "
  }

  class Form {
    var title: string
    var touched: bool
    /** The values handed to `onSubmit`, in order. */
    var submitted: seq<string>

    /** The field never holds more than 50 units, and only valid titles are ever submitted. */
    ghost predicate Valid()
      reads this
    {
      Utf16Length(title) <= MaxTitleLength &&
      forall i :: 0 <= i < |submitted| ==> TitleValid(submitted[i])
    }

    /** The `X/50` counter. */
    function Counter(): (n: nat)
      reads this
      requires Valid()
      ensures n <= MaxTitleLength
    {
      Utf16Length(title)
    }

    constructor ()
      ensures Valid() && title == "" && !touched && submitted == []
    {
      title := "";
      touched := false;
      submitted := [];
    }

    /** An edit of the field: `maxLength={50}` refuses a value longer than 50 units. */
    method Change(value: string)
      requires Valid()
      modifies this`title
      ensures Valid()
      ensures title == if Utf16Length(value) <= MaxTitleLength then value else old(title)
    {
      if Utf16Length(value) <= MaxTitleLength {
        title := value;
      }
    }

    method Blur()
      requires Valid()
      modifies this`touched
      ensures Valid() && touched
    {
      touched := true;
    }

    /** `handleSubmit`: a valid title goes to `onSubmit` as typed and the form resets; otherwise the field is marked touched. */
    method Submit()
      requires Valid()
      modifies this`title, this`touched, this`submitted
      ensures Valid()
      ensures TitleValid(old(title)) ==>
        submitted == old(submitted) + [old(title)] && title == "" && !touched
      ensures !TitleValid(old(title)) ==>
        submitted == old(submitted) && title == old(title) && touched
    {
      if TitleValid(title) {
        submitted := submitted + [title];
        title := "";
        touched := false;
      } else {
        touched := true;
      }
    }
  }

  /** The form's own test cases, played through the model. */
  method FormScenario()
  {
    var form := new Form();
    assert !SubmitEnabled(form.title);
    form.Change("ab");
    TwoCharactersRejected("ab");
    assert !SubmitEnabled(form.title);
    form.Change("New Task");
    assert SubmitEnabled(form.title);
    form.Submit();
    assert form.submitted == ["New Task"] && form.title == "";
  }
}
