/**
 * The contact form component's state: the four text fields, the per-field
 * error dictionary and the three flags of the submission. The POST is split
 * into its start (validation, then the request) and its outcome, which is
 * an input: success or failure.
 */
module ContactForm {
  import opened Wrappers
  import opened Text
  import opened Lead
  import opened ContactValidation

  datatype ContactField = NameField | PhoneField | EmailField | MessageField

  datatype ContactData = ContactData(name: string, phone: string, email: string, message: string)

  const EmptyData := ContactData("", "", "", "")

  function Get(d: ContactData, f: ContactField): string {
    match f
    case NameField => d.name
    case PhoneField => d.phone
    case EmailField => d.email
    case MessageField => d.message
  }

  /** `{ ...prev, [name]: value }`: the named field takes the value, the other three are kept. */
  function With(d: ContactData, f: ContactField, value: string): (r: ContactData)
    ensures Get(r, f) == value
    ensures forall g :: g != f ==> Get(r, g) == Get(d, g)
  {
    match f
    case NameField => d.(name := value)
    case PhoneField => d.(phone := value)
    case EmailField => d.(email := value)
    case MessageField => d.(message := value)
  }

  /**
   * The errors a submit attempt records: the phone error exactly when the
   * phone check fails and the email error exactly when the email check
   * fails, both at once, and nothing else.
   */
  function SubmitErrors(d: ContactData, phoneError: string, emailError: string): (e: map<ContactField, string>)
    ensures e.Keys <= {PhoneField, EmailField}
    ensures PhoneField in e <==> !ValidPhone(d.phone)
    ensures EmailField in e <==> !ValidEmail(d.email)
    ensures PhoneField in e ==> e[PhoneField] == phoneError
    ensures EmailField in e ==> e[EmailField] == emailError
  {
    (if ValidPhone(d.phone) then map[] else map[PhoneField := phoneError])
    + (if ValidEmail(d.email) then map[] else map[EmailField := emailError])
  }

  /** Submission is blocked exactly when one of the two checks fails. */
  lemma SubmitErrorsEmptyIff(d: ContactData, phoneError: string, emailError: string)
    ensures SubmitErrors(d, phoneError, emailError) == map[] <==> ValidPhone(d.phone) && ValidEmail(d.email)
  {
    var e := SubmitErrors(d, phoneError, emailError);
    if ValidPhone(d.phone) && ValidEmail(d.email) {
      assert e.Keys == {};
    }
  }

  /** The posted message: the email on its own line, a blank line, then the user's message. */
  function ContactMessage(email: string, message: string): (m: string)
    ensures |m| == |email| + |message| + 9
    ensures m[..7] == "Email: " && m[|m| - |message|..] == message
  {
    "Email: " + email + "\n\n" + message
  }

  /** The request posted for the form's data: name and phone as entered. */
  function RequestFor(d: ContactData): (r: ContactRequest)
    ensures r.name == d.name && r.phone == d.phone
    ensures r.message == ContactMessage(d.email, d.message)
  {
    ContactRequest(d.name, d.phone, ContactMessage(d.email, d.message))
  }

  /** Splits a posted message back into email and message at the first line break. */
  function SplitContactMessage(m: string): Option<(string, string)> {
    if |m| < 7 || m[..7] != "Email: " then None
    else
      var rest := m[7..];
      var n := IndexOf(rest, '\n');
      if n + 1 < |rest| && rest[n + 1] == '\n' then Some((rest[..n], rest[n + 2..])) else None
  }

  /**
   * For an email that passed validation (so it holds no line break) the
   * posted message determines the email and the message it was built from.
   */
  lemma ContactMessageRoundTrip(email: string, message: string)
    requires ValidEmail(email)
    ensures SplitContactMessage(ContactMessage(email, message)) == Some((email, message))
  {
    var m := ContactMessage(email, message);
    var rest := email + "\n\n" + message;
    assert m[..7] == "Email: ";
    assert m[7..] == rest;
    assert IsJsWhitespace('\n');
    assert forall k :: 0 <= k < |email| ==> email[k] != '\n';
    var tail := "\n\n" + message;
    assert rest == email + tail;
    IndexOfAppend(email, tail, '\n');
    assert IndexOf(tail, '\n') == 0;
    assert rest[|email| + 1] == '\n';
    assert rest[..|email|] == email;
    assert rest[|email| + 2..] == message;
  }

  class ContactSection {
    var data: ContactData
    var errors: map<ContactField, string>
    var isSubmitting: bool
    var isSuccess: bool
    var isError: bool

    /** Only phone and email errors are ever recorded; a request in flight has cleared the error banner. */
    ghost predicate Valid()
      reads this
    {
      errors.Keys <= {PhoneField, EmailField} && (isSubmitting ==> !isError)
    }

    constructor ()
      ensures Valid()
      ensures data == EmptyData && errors == map[]
      ensures !isSubmitting && !isSuccess && !isError
    {
      data := EmptyData;
      errors := map[];
      isSubmitting := false;
      isSuccess := false;
      isError := false;
    }

    /** `handleChange`: the named field takes the value and only its error is cleared. */
    method Change(f: ContactField, value: string)
      requires Valid()
      modifies this`data, this`errors
      ensures Valid()
      ensures data == With(old(data), f, value)
      ensures errors == old(errors) - {f}
    {
      data := With(data, f, value);
      if f in errors {
        errors := errors - {f};
      }
    }

    /**
     * `handleSubmit` up to the POST. When either check fails, both errors are
     * recorded together, nothing is posted and nothing else changes.
     * Otherwise the request is returned, the form is marked in flight and the
     * error banner is cleared. The submit button is disabled while in flight.
     */
    method StartSubmit(phoneError: string, emailError: string) returns (request: Option<ContactRequest>)
      requires Valid() && !isSubmitting
      modifies this`errors, this`isSubmitting, this`isError
      ensures Valid()
      ensures var e := SubmitErrors(data, phoneError, emailError);
              if e != map[] then
                request == None && errors == e && !isSubmitting && isError == old(isError)
              else
                request == Some(RequestFor(data)) && errors == old(errors) && isSubmitting && !isError
    {
      var newErrors: map<ContactField, string> := map[];
      if !ValidPhone(data.phone) {
        newErrors := newErrors[PhoneField := phoneError];
      }
      assert newErrors == if ValidPhone(data.phone) then map[] else map[PhoneField := phoneError];
      ghost var afterPhone := newErrors;
      if !ValidEmail(data.email) {
        newErrors := newErrors[EmailField := emailError];
      }
      assert newErrors == afterPhone + if ValidEmail(data.email) then map[] else map[EmailField := emailError];
      assert newErrors == SubmitErrors(data, phoneError, emailError);
      if newErrors != map[] {
        errors := newErrors;
        request := None;
        return;
      }
      isSubmitting := true;
      isError := false;
      request := Some(RequestFor(data));
    }

    /**
     * The POST settles. On success the fields reset to empty and the success
     * banner shows; on failure the error banner shows and the fields are
     * kept. Either way the form is no longer in flight.
     */
    method FinishSubmit(succeeded: bool)
      requires Valid() && isSubmitting
      modifies this`data, this`isSubmitting, this`isSuccess, this`isError
      ensures Valid()
      ensures !isSubmitting
      ensures succeeded ==> isSuccess && !isError && data == EmptyData
      ensures !succeeded ==> isError && isSuccess == old(isSuccess) && data == old(data)
    {
      if succeeded {
        isSuccess := true;
        data := EmptyData;
      } else {
        isError := true;
      }
      isSubmitting := false;
    }
  }
}
