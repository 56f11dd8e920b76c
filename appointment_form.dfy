/** The appointment booking form: its fields, the rules `validate` checks one field at a
    time, and the submit and change handlers. */
module AppointmentForm {
  import opened Text
  import opened Wrappers
  import opened Patterns
  import opened Validation

  datatype Field = FullName | Email | Phone | AppointmentType | PreferredDate | PreferredTime | Message

  datatype Data = Data(fullName: string, email: string, phone: string, appointmentType: string,
                       preferredDate: string, preferredTime: string, message: string)

  const Empty := Data("", "", "", "", "", "", "")

  /** `formData[name]`. */
  function Get(d: Data, f: Field): string {
    match f
    case FullName => d.fullName
    case Email => d.email
    case Phone => d.phone
    case AppointmentType => d.appointmentType
    case PreferredDate => d.preferredDate
    case PreferredTime => d.preferredTime
    case Message => d.message
  }

  /** `{ ...prev, [name]: value }`: the one field changes, every other keeps its value. */
  function Set(d: Data, f: Field, v: string): (r: Data)
    ensures forall g :: Get(r, g) == if g == f then v else Get(d, g)
  {
    match f
    case FullName => d.(fullName := v)
    case Email => d.(email := v)
    case Phone => d.(phone := v)
    case AppointmentType => d.(appointmentType := v)
    case PreferredDate => d.(preferredDate := v)
    case PreferredTime => d.(preferredTime := v)
    case Message => d.(message := v)
  }

  /** The error record, `Partial<AppointmentFormData>`: a message or nothing for each
      field. */
  datatype Errors = Errors(fullName: Option<string>, email: Option<string>, phone: Option<string>,
                           appointmentType: Option<string>, preferredDate: Option<string>,
                           preferredTime: Option<string>, message: Option<string>)

  const NoErrors := Errors(None, None, None, None, None, None, None)

  function ErrorOf(e: Errors, f: Field): Option<string> {
    match f
    case FullName => e.fullName
    case Email => e.email
    case Phone => e.phone
    case AppointmentType => e.appointmentType
    case PreferredDate => e.preferredDate
    case PreferredTime => e.preferredTime
    case Message => e.message
  }

  /** `{ ...prev, [name]: undefined }`: the one field loses its error, the others keep
      theirs. */
  function Clear(e: Errors, f: Field): (r: Errors)
    ensures forall g :: ErrorOf(r, g) == if g == f then None else ErrorOf(e, g)
  {
    match f
    case FullName => e.(fullName := None)
    case Email => e.(email := None)
    case Phone => e.(phone := None)
    case AppointmentType => e.(appointmentType := None)
    case PreferredDate => e.(preferredDate := None)
    case PreferredTime => e.(preferredTime := None)
    case Message => e.(message := None)
  }

  /** Blank (`!v.trim()`) means white space only; the pattern sees the untrimmed value. */
  function EmailError(v: string): Option<string> {
    if AllSpace(v) then Some("Email is required")
    else if !AppointmentEmail(v) then Some("Invalid email address")
    else None
  }

  /** The record `validate` builds: the name must not be blank, the e-mail and phone pass
      their rules, type, date and time are chosen; the message is free text. */
  function Check(d: Data): Errors {
    Errors(Required(d.fullName, "Full name is required"),
           EmailError(d.email), PhoneError(d.phone),
           Chosen(d.appointmentType, "Please select appointment type"),
           Chosen(d.preferredDate, "Please select a date"),
           Chosen(d.preferredTime, "Please select a time"),
           None)
  }

  /** An e-mail passes exactly when it matches `^\S+@\S+\.\S+$`: the blank test adds nothing. */
  lemma EmailErrorIff(v: string)
    ensures EmailError(v).None? <==> AppointmentEmail(v)
  {
    if AppointmentEmail(v) {
      assert !IsSpace(v[0]);
    }
  }

  /** The form is accepted exactly when the name is not blank, the e-mail matches
      `^\S+@\S+\.\S+$`, the phone is ten digits, and type, date and time are chosen;
      the message plays no part. */
  lemma AcceptedIff(d: Data)
    ensures Accepted(Check(d)) <==>
            && !AllSpace(d.fullName) && AppointmentEmail(d.email) && TenDigits(d.phone)
            && d.appointmentType != [] && d.preferredDate != [] && d.preferredTime != []
  {
    EmailErrorIff(d.email);
    PhoneErrorIff(d.phone);
  }

  /** The e-mail step of validate. */
  method CheckEmail(v: string) returns (r: Option<string>)
    ensures r == EmailError(v)
  {
    r := None;
    var blank := IsBlank(v);
    if blank {
      r := Some("Email is required");
    } else if !AppointmentEmail(v) {
      r := Some("Invalid email address");
    }
  }

  /** validate's body: the error record built one field at a time. */
  method BuildErrors(d: Data) returns (e: Errors)
    ensures e == Check(d)
  {
    e := NoErrors;
    var name := CheckRequired(d.fullName, "Full name is required");
    e := e.(fullName := name);
    var email := CheckEmail(d.email);
    e := e.(email := email);
    var phone := CheckPhone(d.phone);
    e := e.(phone := phone);
    if d.appointmentType == [] {
      e := e.(appointmentType := Some("Please select appointment type"));
    }
    if d.preferredDate == [] {
      e := e.(preferredDate := Some("Please select a date"));
    }
    if d.preferredTime == [] {
      e := e.(preferredTime := Some("Please select a time"));
    }
  }

  /** `Object.keys(newErrors).length === 0`: no field has a message. */
  predicate Accepted(e: Errors) {
    e.fullName.None? && e.email.None? && e.phone.None? && e.appointmentType.None?
    && e.preferredDate.None? && e.preferredTime.None? && e.message.None?
  }

  class Page {
    var data: Data
    var errors: Errors
    var submitted: bool

    constructor ()
      ensures data == Empty && errors == NoErrors && !submitted
    {
      data := Empty;
      errors := NoErrors;
      submitted := false;
    }

    /** validate: builds the error record, stores it, and reports whether it is empty. */
    method Validate() returns (ok: bool)
      modifies this
      ensures errors == Check(old(data)) && data == old(data) && submitted == old(submitted)
      ensures ok <==> Accepted(errors)
    {
      var d := data;
      var e := BuildErrors(d);
      errors := e;
      ok := Accepted(e);
    }

    /** handleSubmit: on success the confirmation is shown and the form and its errors
        are cleared; otherwise the form stays and the errors are shown. */
    method Submit()
      modifies this
      ensures Accepted(Check(old(data))) ==> data == Empty && errors == NoErrors && submitted
      ensures !Accepted(Check(old(data))) ==> data == old(data) && errors == Check(old(data)) && submitted == old(submitted)
    {
      var ok := Validate();
      if ok {
        submitted := true;
        data := Empty;
        errors := NoErrors;
      }
    }

    /** handleChange: the field takes the value and loses its error; nothing else changes. */
    method Change(f: Field, v: string)
      modifies this
      ensures data == Set(old(data), f, v) && errors == Clear(old(errors), f) && submitted == old(submitted)
    {
      data := Set(data, f, v);
      if ErrorOf(errors, f).Some? {
        errors := Clear(errors, f);
      }
    }

    /** "Book another": back to the form. */
    method BookAnother()
      modifies this
      ensures !submitted && data == old(data) && errors == old(errors)
    {
      submitted := false;
    }
  }
}
