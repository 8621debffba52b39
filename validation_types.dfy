/**
 * The validation result of common/validation/types.go: a Result holds a
 * details text, a code, a list of references to named field errors and
 * optional meta data. Field errors are shared objects: AddResult copies
 * references, and AddFieldError appends to the codes of the error it
 * finds in place, so the change is visible through every list holding it.
 */
module ValidationTypes {
  import opened Optional

  const NotImplementedCode: string := "not_implemented"
  const UnknownField: string := "unknown"

  datatype ErrorDetails = ErrorDetails(message: string, code: string)

  /** A value stored under an interface{} in Meta or Data. */
  datatype Dynamic = DynString(s: string) | DynInt(i: int) | DynBool(b: bool) | DynOther(description: string)

  /** A named field error. Only its codes are ever changed after it is made. */
  class Error {
    const name: string
    const index: int
    var codes: seq<ErrorDetails>
    const data: Option<map<string, Dynamic>>   // None: a nil map

    constructor (name: string, index: int, codes: seq<ErrorDetails>, data: Option<map<string, Dynamic>>)
      ensures this.name == name && this.index == index && this.codes == codes && this.data == data
    {
      this.name := name;
      this.index := index;
      this.codes := codes;
      this.data := data;
    }
  }

  /** Position of the first error with this name, or |errs| when there is none. */
  function IndexOfName(errs: seq<Error>, field: string): (i: nat)
    ensures i <= |errs|
    ensures forall j :: 0 <= j < i ==> errs[j].name != field
    ensures i < |errs| ==> errs[i].name == field
  {
    if errs == [] then 0
    else if errs[0].name == field then 0
    else 1 + IndexOfName(errs[1..], field)
  }

  /** Position of the first error with this name and index, or |errs| when there is none. */
  function IndexOfNameAt(errs: seq<Error>, field: string, index: int): (i: nat)
    ensures i <= |errs|
    ensures forall j :: 0 <= j < i ==> !(errs[j].name == field && errs[j].index == index)
    ensures i < |errs| ==> errs[i].name == field && errs[i].index == index
  {
    if errs == [] then 0
    else if errs[0].name == field && errs[0].index == index then 0
    else 1 + IndexOfNameAt(errs[1..], field, index)
  }

  predicate UniqueNames(errs: seq<Error>) {
    forall i, j :: 0 <= i < j < |errs| ==> errs[i].name != errs[j].name
  }

  class Result {
    var details: string
    var code: string
    var errors: seq<Error>
    var meta: Option<map<string, Dynamic>>   // None: a nil map

    /** The &Result{...} literal. */
    constructor (details: string, code: string, errors: seq<Error>, meta: Option<map<string, Dynamic>>)
      ensures this.details == details && this.code == code && this.errors == errors && this.meta == meta
    {
      this.details := details;
      this.code := code;
      this.errors := errors;
      this.meta := meta;
    }

    /** A result is valid when it has no field errors and no details; code and meta do not matter. */
    predicate IsValid()
      reads this
    {
      |errors| == 0 && details == ""
    }

    /** Append the other result's error references, in order; nothing else changes. */
    method AddResult(other: Result)
      modifies this`errors
      ensures errors == old(errors) + old(other.errors)
      ensures IsValid() <==> old(IsValid()) && old(other.errors) == []
    {
      errors := errors + other.errors;
    }

    /** Set one meta key, creating the map on first use; returns the receiver. */
    method AddMetaInfo(key: string, value: Dynamic) returns (self: Result)
      modifies this`meta
      ensures self == this
      ensures meta.Some? && meta.value == (if old(meta).Some? then old(meta).value else map[])[key := value]
      ensures IsValid() == old(IsValid())
    {
      if meta.None? {
        meta := Some(map[]);
      }
      meta := Some(meta.value[key := value]);
      return this;
    }

    /**
     * Add `ed` to the first error named `field`, in place, or append a new
     * error with that name and `ed` as its only code. Returns the receiver.
     */
    method AddFieldError(field: string, ed: ErrorDetails) returns (self: Result)
      modifies this`errors, errors
      ensures self == this
      ensures var i := IndexOfName(old(errors), field);
        if i < |old(errors)| then
          errors == old(errors) && errors[i].codes == old(errors[i].codes) + [ed]
          && forall e :: e in old(errors) && e != errors[i] ==> e.codes == old(e.codes)
        else
          |errors| == |old(errors)| + 1 && errors[..i] == old(errors) && fresh(errors[i])
          && errors[i].name == field && errors[i].index == 0 && errors[i].codes == [ed] && errors[i].data == None
          && forall e :: e in old(errors) ==> e.codes == old(e.codes)
      ensures old(UniqueNames(errors)) ==> UniqueNames(errors)
      ensures !IsValid()
    {
      var k := 0;
      while k < |errors|
        invariant k <= |errors|
        invariant forall j :: 0 <= j < k ==> errors[j].name != field
      {
        var e := errors[k];
        if e.name == field {
          e.codes := e.codes + [ed];
          return this;
        }
        k := k + 1;
      }
      var created := new Error(field, 0, [ed], None);
      errors := errors + [created];
      return this;
    }

    /**
     * As AddFieldError, but matching on name and index; `data` is stored
     * only when a new error is created and is ignored on a match.
     */
    method AddFieldErrorWithData(field: string, ed: ErrorDetails, data: Option<map<string, Dynamic>>, index: int)
      returns (self: Result)
      modifies this`errors, errors
      ensures self == this
      ensures var i := IndexOfNameAt(old(errors), field, index);
        if i < |old(errors)| then
          errors == old(errors) && errors[i].codes == old(errors[i].codes) + [ed]
          && forall e :: e in old(errors) && e != errors[i] ==> e.codes == old(e.codes)
        else
          |errors| == |old(errors)| + 1 && errors[..i] == old(errors) && fresh(errors[i])
          && errors[i].name == field && errors[i].index == index && errors[i].codes == [ed] && errors[i].data == data
          && forall e :: e in old(errors) ==> e.codes == old(e.codes)
      ensures !IsValid()
    {
      var k := 0;
      while k < |errors|
        invariant k <= |errors|
        invariant forall j :: 0 <= j < k ==> !(errors[j].name == field && errors[j].index == index)
      {
        var e := errors[k];
        if e.name == field && e.index == index {
          e.codes := e.codes + [ed];
          return this;
        }
        k := k + 1;
      }
      var created := new Error(field, index, [ed], data);
      errors := errors + [created];
      return this;
    }

    /** Replace the details by the formatted text; fmt.Sprintf is a parameter. Returns the receiver. */
    method AddDetails(details: string, formatArgs: seq<Dynamic>, sprintf: (string, seq<Dynamic>) -> string)
      returns (self: Result)
      modifies this`details
      ensures self == this && this.details == sprintf(details, formatArgs)
    {
      this.details := sprintf(details, formatArgs);
      return this;
    }

    /** Set the code only; returns the receiver. */
    method AddCode(code: string) returns (self: Result)
      modifies this`code
      ensures self == this && this.code == code
      ensures IsValid() == old(IsValid())
    {
      this.code := code;
      return this;
    }
  }

  /** NewResult: no details, no code, an empty error list; so it is valid. */
  method NewResult() returns (r: Result)
    ensures fresh(r)
    ensures r.details == "" && r.code == "" && r.errors == [] && r.meta == None
    ensures r.IsValid()
  {
    r := new Result("", "", [], None);
  }

  /** Results that carry an error text as details and a code, and no field errors. */
  method CodeError(code: string, errText: string) returns (r: Result)
    ensures fresh(r) && r.details == errText && r.code == code && r.errors == [] && r.meta == None
    ensures r.IsValid() <==> errText == ""
  {
    r := new Result(errText, code, [], None);
  }

  method UnmarshalError(errText: string) returns (r: Result)
    ensures fresh(r) && r.details == errText && r.code == NotImplementedCode && r.errors == [] && r.meta == None
  {
    r := new Result(errText, NotImplementedCode, [], None);
  }

  method DBOperationError(errText: string) returns (r: Result)
    ensures fresh(r) && r.details == errText && r.code == NotImplementedCode && r.errors == [] && r.meta == None
  {
    r := new Result(errText, NotImplementedCode, [], None);
  }

  method CaptchaError(errText: string) returns (r: Result)
    ensures fresh(r) && r.details == errText && r.code == "captcha_error" && r.errors == [] && r.meta == None
  {
    r := new Result(errText, "captcha_error", [], None);
  }

  method NoCodeError(errText: string) returns (r: Result)
    ensures fresh(r) && r.details == errText && r.code == "" && r.errors == [] && r.meta == None
  {
    r := new Result(errText, "", [], None);
  }

  method BothEmailAndPhoneProvided() returns (r: Result)
    ensures fresh(r) && r.code == "both_email_phone_provided" && r.errors == [] && r.meta == None
    ensures r.details == "can't provide both email and phone during registration" && !r.IsValid()
  {
    r := new Result("can't provide both email and phone during registration", "both_email_phone_provided", [], None);
  }

  /** The field name unmarshalError reports: the `field=` capture, or "unknown". */
  function UnmarshalFieldName(fieldGroup: Option<string>): (name: string)
    ensures fieldGroup.None? ==> name == UnknownField
    ensures fieldGroup.Some? ==> name == fieldGroup.value
  {
    if fieldGroup.Some? then fieldGroup.value else UnknownField
  }

  /** The message unmarshalError reports: the `internal=` capture, or the whole error text. */
  function UnmarshalMessage(errText: string, detailsGroup: Option<string>): (message: string)
    ensures detailsGroup.None? ==> message == errText
    ensures detailsGroup.Some? ==> message == detailsGroup.value
  {
    if detailsGroup.Some? then detailsGroup.value else errText
  }

  /**
   * unmarshalError. The two regular-expression matches on the error text
   * are given as their first capture group, None when there is no match.
   * The result always holds exactly one field error with exactly one code.
   */
  method UnmarshalCodedError(code: string, errText: string, fieldGroup: Option<string>, detailsGroup: Option<string>)
    returns (out: Result)
    ensures fresh(out) && out.details == "" && out.code == "" && out.meta == None
    ensures |out.errors| == 1 && fresh(out.errors[0])
    ensures out.errors[0].name == UnmarshalFieldName(fieldGroup)
    ensures out.errors[0].codes == [ErrorDetails(UnmarshalMessage(errText, detailsGroup), code)]
    ensures !out.IsValid()
  {
    out := NewResult();
    var fieldName := UnknownField;
    if fieldGroup.Some? {
      fieldName := fieldGroup.value;
    }
    var errorDetails := errText;
    if detailsGroup.Some? {
      errorDetails := detailsGroup.value;
    }
    var _ := out.AddFieldError(fieldName, ErrorDetails(errorDetails, code));
  }

  method UnmarshalDetailedError(errText: string, fieldGroup: Option<string>, detailsGroup: Option<string>)
    returns (out: Result)
    ensures fresh(out) && out.details == "" && out.code == "" && out.meta == None
    ensures |out.errors| == 1 && fresh(out.errors[0])
    ensures out.errors[0].name == UnmarshalFieldName(fieldGroup)
    ensures out.errors[0].codes == [ErrorDetails(UnmarshalMessage(errText, detailsGroup), NotImplementedCode)]
  {
    out := UnmarshalCodedError(NotImplementedCode, errText, fieldGroup, detailsGroup);
  }

  // ---------------------------------------------------------------------
  // The fixed error details

  function EitherPhoneOrEmail(): ErrorDetails {
    ErrorDetails("either phone or e-mail must be provided", "email_or_phone_must_be_provided")
  }
  function EmptyBirthDate(): ErrorDetails { ErrorDetails("empty birthday", "empty_birthday") }
  function NotOnlyLetters(): ErrorDetails { ErrorDetails("field must contain only letters", "only_letters_allowed") }
  function UserAlreadyExists(): ErrorDetails { ErrorDetails("user already exists", "user_already_exists") }
  function Unauthorized(): ErrorDetails { ErrorDetails("unauthorized", "unauthorized") }
  function EmptyPassword(): ErrorDetails { ErrorDetails("empty password provided", "empty_password") }
  function InvalidPassword(): ErrorDetails {
    ErrorDetails("password must contain at least 1 lowercased letter, 1 capital letter, 1 digit, 1 special char and be minimum 8 chars long",
                 "wrong_password_format")
  }
  function RulesNotAccepted(): ErrorDetails { ErrorDetails("rules were not accepted", "rules_not_accepted") }
  function NameIsTooShort(): ErrorDetails { ErrorDetails("name cannot be less than 2 characters", "name_too_short") }
  function TooYoungAge(): ErrorDetails { ErrorDetails("age must be more than 18 years", "age_must_be_over_18") }
  function WrongPhoneFormat(): ErrorDetails {
    ErrorDetails("wrong phone format: it should contain only digits", "phone_wrong_format")
  }
  function InvalidEmail(): ErrorDetails { ErrorDetails("email is empty or has invalid format", "invalid_email") }
  function UnknownCountry(): ErrorDetails { ErrorDetails("such country does not exist", "unknown_country") }
  function InvalidPhone(): ErrorDetails { ErrorDetails("phone is empty", "empty_phone") }

  const InvalidIPAddressText: string := "ip_address is empty or has invalid format: "

  /** The message is a fixed text followed by the rejected address, which can be read back from it. */
  function InvalidIPAddress(ip: string): (ed: ErrorDetails)
    ensures ed.code == "invalid_ip_address"
    ensures |ed.message| == |InvalidIPAddressText| + |ip|
    ensures ed.message[..|InvalidIPAddressText|] == InvalidIPAddressText
    ensures ed.message[|InvalidIPAddressText|..] == ip
  {
    ErrorDetails(InvalidIPAddressText + ip, "invalid_ip_address")
  }

  function EmptyDevice(): ErrorDetails { ErrorDetails("empty device provided", "empty_device") }
  function EmptyRefreshToken(): ErrorDetails { ErrorDetails("empty refresh token provided", "empty_refresh_token") }
  function InvalidAntiPhishingCode(): ErrorDetails {
    ErrorDetails("anti-phishing code is invalid", "invalid_anti_phishing_code")
  }
  function InvalidCountryCallingCodeFormat(): ErrorDetails {
    ErrorDetails("country calling code format is invalid", "wrong_country_code_format")
  }
  function WrongCountryCallingCode(): ErrorDetails {
    ErrorDetails("country calling code does not match selected country", "mismatch_county_code")
  }
  function InvalidPageLimit(): ErrorDetails { ErrorDetails("page limit is invalid", "limit_is_invalid") }
  function InvalidOrderColumn(): ErrorDetails { ErrorDetails("order column is invalid", "ordering_is_invalid") }
  function InvalidOtpCode(): ErrorDetails { ErrorDetails("invalid otp code provided", "invalid_otp_code") }
  function InvalidAction(): ErrorDetails { ErrorDetails("action is invalid", "invalid_action") }
  function Invalid2FAMethod(): ErrorDetails { ErrorDetails("method is invalid", "invalid_method") }
  function InvalidCode(): ErrorDetails { ErrorDetails("code is invalid", "invalid_code") }
  function InvalidKey(): ErrorDetails { ErrorDetails("key is empty", "empty_key") }
  function InvalidResetToken(): ErrorDetails { ErrorDetails("reset-token is invalid", "invalid_reset_token") }
  function InvalidConfirmPassword(): ErrorDetails {
    ErrorDetails("confirm password is invalid", "invalid_confirm_password")
  }
  function InvalidKeys(): ErrorDetails { ErrorDetails("phone or email method is missing", "phone_email_method_missing") }

  /** An error detail a client can show and match on: a message and a code. */
  predicate WellFormed(ed: ErrorDetails) {
    |ed.message| > 0 && |ed.code| > 0
  }

  /** Every fixed error detail, in the order types.go declares them, carries a message and a code. */
  lemma FixedErrorDetailsWellFormed()
    ensures WellFormed(EitherPhoneOrEmail()) && WellFormed(EmptyBirthDate()) && WellFormed(NotOnlyLetters())
    ensures WellFormed(UserAlreadyExists()) && WellFormed(Unauthorized()) && WellFormed(EmptyPassword())
    ensures WellFormed(InvalidPassword()) && WellFormed(RulesNotAccepted()) && WellFormed(NameIsTooShort())
    ensures WellFormed(TooYoungAge()) && WellFormed(WrongPhoneFormat()) && WellFormed(InvalidEmail())
    ensures WellFormed(UnknownCountry()) && WellFormed(InvalidPhone()) && WellFormed(EmptyDevice())
    ensures WellFormed(EmptyRefreshToken()) && WellFormed(InvalidAntiPhishingCode()) && WellFormed(InvalidCountryCallingCodeFormat())
    ensures WellFormed(WrongCountryCallingCode()) && WellFormed(InvalidPageLimit()) && WellFormed(InvalidOrderColumn())
    ensures WellFormed(InvalidOtpCode()) && WellFormed(InvalidAction()) && WellFormed(Invalid2FAMethod())
    ensures WellFormed(InvalidCode()) && WellFormed(InvalidKey()) && WellFormed(InvalidResetToken())
    ensures WellFormed(InvalidConfirmPassword()) && WellFormed(InvalidKeys())
    ensures forall ip :: WellFormed(InvalidIPAddress(ip))
  {
  }

  /**
   * The details the wrappers attach can be told apart by their codes: an
   * invalid address, an empty device and an invalid anti-phishing code.
   */
  lemma WrapperErrorCodesDistinct(ip: string)
    ensures InvalidIPAddress(ip).code != EmptyDevice().code
    ensures InvalidIPAddress(ip).code != InvalidAntiPhishingCode().code
    ensures EmptyDevice().code != InvalidAntiPhishingCode().code
  {
    assert InvalidIPAddress(ip).code[1] == 'n' && EmptyDevice().code[1] == 'm';
    assert InvalidAntiPhishingCode().code[8] == 'a';
    assert InvalidIPAddress(ip).code[8] == 'i';
  }
}
