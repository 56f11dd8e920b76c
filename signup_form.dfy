/** The student sign-up form: ten fields, the rules `validate` checks one field at a time,
    and the submit and change handlers. */
module SignupForm {
  import opened Text
  import opened Wrappers
  import opened Patterns
  import opened Validation

  datatype Field = FullName | Email | Phone | Address | DateOfBirth | Occupation
                 | Experience | Goals | PreferredTime | CourseType

  datatype Data = Data(fullName: string, email: string, phone: string, address: string,
                       dateOfBirth: string, occupation: string, experience: string,
                       goals: string, preferredTime: string, courseType: string)

  const Empty := Data("", "", "", "", "", "", "", "", "", "")

  /** `formData[name]`. */
  function Get(d: Data, f: Field): string {
    match f
    case FullName => d.fullName
    case Email => d.email
    case Phone => d.phone
    case Address => d.address
    case DateOfBirth => d.dateOfBirth
    case Occupation => d.occupation
    case Experience => d.experience
    case Goals => d.goals
    case PreferredTime => d.preferredTime
    case CourseType => d.courseType
  }

  /** `{ ...prev, [name]: value }`: the one field changes, every other keeps its value. */
  function Set(d: Data, f: Field, v: string): (r: Data)
    ensures forall g :: Get(r, g) == if g == f then v else Get(d, g)
  {
    match f
    case FullName => d.(fullName := v)
    case Email => d.(email := v)
    case Phone => d.(phone := v)
    case Address => d.(address := v)
    case DateOfBirth => d.(dateOfBirth := v)
    case Occupation => d.(occupation := v)
    case Experience => d.(experience := v)
    case Goals => d.(goals := v)
    case PreferredTime => d.(preferredTime := v)
    case CourseType => d.(courseType := v)
  }

  /** The error record, `Partial<SignupFormData>`. */
  datatype Errors = Errors(fullName: Option<string>, email: Option<string>, phone: Option<string>,
                           address: Option<string>, dateOfBirth: Option<string>,
                           occupation: Option<string>, experience: Option<string>,
                           goals: Option<string>, preferredTime: Option<string>,
                           courseType: Option<string>)

  const NoErrors := Errors(None, None, None, None, None, None, None, None, None, None)

  function ErrorOf(e: Errors, f: Field): Option<string> {
    match f
    case FullName => e.fullName
    case Email => e.email
    case Phone => e.phone
    case Address => e.address
    case DateOfBirth => e.dateOfBirth
    case Occupation => e.occupation
    case Experience => e.experience
    case Goals => e.goals
    case PreferredTime => e.preferredTime
    case CourseType => e.courseType
  }

  /** `{ ...prev, [name]: undefined }`: the one field loses its error, the others keep
      theirs. */
  function Clear(e: Errors, f: Field): (r: Errors)
    ensures forall g :: ErrorOf(r, g) == if g == f then None else ErrorOf(e, g)
  {
    match f
    case FullName => e.(fullName := None)
    case Email => e.(email := None)
    case Phone => e.(phone := None)
    case Address => e.(address := None)
    case DateOfBirth => e.(dateOfBirth := None)
    case Occupation => e.(occupation := None)
    case Experience => e.(experience := None)
    case Goals => e.(goals := None)
    case PreferredTime => e.(preferredTime := None)
    case CourseType => e.(courseType := None)
  }

  /** Blank is "required"; anything else must match /^\S+@\S+$/ as typed: no dot needed. */
  function EmailError(v: string): Option<string> {
    if AllSpace(v) then Some("Email is required")
    else if !SignupEmail(v) then Some("Invalid email address")
    else None
  }

  /** The record `validate` builds: name, address and occupation not blank, the e-mail and
      phone pass their rules, date of birth and course type chosen; experience, goals
      and preferred time are optional. */
  function Check(d: Data): Errors {
    Errors(Required(d.fullName, "Full name is required"),
           EmailError(d.email), PhoneError(d.phone),
           Required(d.address, "Address is required"),
           Chosen(d.dateOfBirth, "Date of birth is required"),
           Required(d.occupation, "Occupation is required"),
           None, None, None,
           Chosen(d.courseType, "Please select a course type"))
  }

  /** `Object.keys(newErrors).length === 0`: no field has a message. */
  predicate Accepted(e: Errors) {
    && e.fullName.None? && e.email.None? && e.phone.None? && e.address.None?
    && e.dateOfBirth.None? && e.occupation.None? && e.experience.None? && e.goals.None?
    && e.preferredTime.None? && e.courseType.None?
  }

  /** An e-mail passes exactly when it matches `^\S+@\S+$`. */
  lemma EmailErrorIff(v: string)
    ensures EmailError(v).None? <==> SignupEmail(v)
  {
    if SignupEmail(v) {
      assert !IsSpace(v[0]);
    }
  }

  /** The form is accepted exactly when name, address and occupation are not blank, the
      e-mail matches `^\S+@\S+$`, the phone is ten digits, and date of birth and course
      type are chosen. */
  lemma AcceptedIff(d: Data)
    ensures Accepted(Check(d)) <==>
            && !AllSpace(d.fullName) && SignupEmail(d.email) && TenDigits(d.phone)
            && !AllSpace(d.address) && d.dateOfBirth != [] && !AllSpace(d.occupation)
            && d.courseType != []
  {
    EmailErrorIff(d.email);
    PhoneErrorIff(d.phone);
  }

  /** Every e-mail the appointment form takes, this form takes too, and "a@b" passes here
      alone. */
  lemma LaxerThanAppointment(v: string)
    ensures AppointmentEmail(v) ==> EmailError(v).None?
    ensures EmailError("a@b").None? && !AppointmentEmail("a@b")
  {
    EmailErrorIff(v);
    if AppointmentEmail(v) {
      AppointmentEmailImpliesSignupEmail(v);
    }
    EmailErrorIff("a@b");
    NoDotSeparatesSignupFromAppointment();
  }

  /** The e-mail step of validate. */
  method CheckEmail(v: string) returns (r: Option<string>)
    ensures r == EmailError(v)
  {
    r := None;
    var blank := IsBlank(v);
    if blank {
      r := Some("Email is required");
    } else if !SignupEmail(v) {
      r := Some("Invalid email address");
    }
  }

  /** validate's body: the error record built one field at a time. */
  method BuildErrors(d: Data) returns (e: Errors)
    ensures e == Check(d)
  {
    e := NoErrors;
    var name := CheckRequired(d.fullName, "Full name is required");
    e := e.(fullName := name);
    var email := CheckEmail(d.email);
    e := e.(email := email);
    var phone := CheckPhone(d.phone);
    e := e.(phone := phone);
    if d.dateOfBirth == [] {
      e := e.(dateOfBirth := Some("Date of birth is required"));
    }
    var address := CheckRequired(d.address, "Address is required");
    e := e.(address := address);
    var occupation := CheckRequired(d.occupation, "Occupation is required");
    e := e.(occupation := occupation);
    if d.courseType == [] {
      e := e.(courseType := Some("Please select a course type"));
    }
  }

  class Page {
    var data: Data
    var errors: Errors
    var submitted: bool

    constructor ()
      ensures data == Empty && errors == NoErrors && !submitted
    {
      data := Empty;
      errors := NoErrors;
      submitted := false;
    }

    /** validate: builds the error record, stores it, and reports whether it is empty. */
    method Validate() returns (ok: bool)
      modifies this
      ensures errors == Check(old(data)) && data == old(data) && submitted == old(submitted)
      ensures ok <==> Accepted(errors)
    {
      var d := data;
      var e := BuildErrors(d);
      errors := e;
      ok := Accepted(e);
    }

    /** handleSubmit: on success the confirmation is shown and the form is cleared (the
        errors are the empty record `validate` just stored); otherwise the form stays and
        the errors are shown. */
    method Submit()
      modifies this
      ensures errors == Check(old(data))
      ensures Accepted(Check(old(data))) ==> data == Empty && submitted
      ensures !Accepted(Check(old(data))) ==> data == old(data) && submitted == old(submitted)
    {
      var ok := Validate();
      if ok {
        submitted := true;
        data := Empty;
      }
    }

    /** handleChange: the field takes the value and loses its error; nothing else changes. */
    method Change(f: Field, v: string)
      modifies this
      ensures data == Set(old(data), f, v) && errors == Clear(old(errors), f) && submitted == old(submitted)
    {
      data := Set(data, f, v);
      if ErrorOf(errors, f).Some? {
        errors := Clear(errors, f);
      }
    }

    /** "Register another student": back to the form. */
    method RegisterAnother()
      modifies this
      ensures !submitted && data == old(data) && errors == old(errors)
    {
      submitted := false;
    }
  }
}
