/** The field rules the appointment and sign-up forms share: the blank test, the
    "required" rules and the ten-digit phone rule, each with the step of `validate` that
    applies it. */
module Validation {
  import opened Text
  import opened Wrappers
  import opened Patterns

  /** `!v.trim()`: the value is white space only. */
  method IsBlank(v: string) returns (b: bool)
    ensures b <==> AllSpace(v)
  {
    TrimEmptyIffAllSpace(v);
    b := Trim(v) == [];
  }

  /** A text field that must not be blank. */
  function Required(v: string, message: string): Option<string> {
    if AllSpace(v) then Some(message) else None
  }

  /** `if (!formData.x.trim()) newErrors.x = message`. */
  method CheckRequired(v: string, message: string) returns (r: Option<string>)
    ensures r == Required(v, message)
  {
    r := None;
    var blank := IsBlank(v);
    if blank {
      r := Some(message);
    }
  }

  /** A drop-down or date field: any value but the empty string is a choice. */
  function Chosen(v: string, message: string): Option<string> {
    if v == [] then Some(message) else None
  }

  /** Blank is "required"; anything else must match /^\d{10}$/ as typed, untrimmed. */
  function PhoneError(v: string): Option<string> {
    if AllSpace(v) then Some("Phone number is required")
    else if !TenDigits(v) then Some("Please enter a valid 10-digit phone number")
    else None
  }

  /** The phone step of `validate`. */
  method CheckPhone(v: string) returns (r: Option<string>)
    ensures r == PhoneError(v)
  {
    r := None;
    var blank := IsBlank(v);
    if blank {
      r := Some("Phone number is required");
    } else if !TenDigits(v) {
      r := Some("Please enter a valid 10-digit phone number");
    }
  }

  /** A phone passes exactly when it is ten digits: the blank test adds nothing, and
      spaces or separators anywhere fail it. */
  lemma PhoneErrorIff(v: string)
    ensures PhoneError(v).None? <==> TenDigits(v)
    ensures PhoneError(v).Some? && !AllSpace(v) ==> PhoneError(v) == Some("Please enter a valid 10-digit phone number")
  {
    if TenDigits(v) {
      assert IsDigit(v[0]);
    }
  }
}
