/**
 * The registration handler's input validator with its e-mail and
 * date-of-birth predicates.  The e-mail test is the regular expression
 * `^[^\s@]+@[^\s@]+\.[^\s@]+$` under `re.match`, written out by hand; the
 * date test is `datetime.strptime(s, '%Y-%m-%d')`, whose pattern accepts
 * some unpadded fields, followed by the calendar check.
 */
module Registration {
  import opened Wrappers
  import opened Json
  import opened Requests
  import Text

  // ---------------------------------------------------------------------
  // E-mail
  // ---------------------------------------------------------------------

  /** A character of `[^\s@]`. */
  predicate EmailChar(c: char) {
    !Text.IsSpace(c) && c != '@'
  }

  /** `[^\s@]+`. */
  predicate EmailRun(t: string) {
    |t| > 0 && forall i :: 0 <= i < |t| ==> EmailChar(t[i])
  }

  /** The first position of `c` in `s`, or `|s|`. */
  function IndexOf(s: string, c: char): (r: nat)
    ensures r <= |s|
    ensures forall i :: 0 <= i < r ==> s[i] != c
    ensures r < |s| ==> s[r] == c
  {
    if s == [] || s[0] == c then 0 else 1 + IndexOf(s[1..], c)
  }

  /** The whole of `b` matches `[^\s@]+@[^\s@]+\.[^\s@]+`. */
  predicate EmailBody(b: string) {
    var k := IndexOf(b, '@');
    var domain := if k < |b| then b[k + 1..] else [];
    k < |b| && EmailRun(b[..k]) && EmailRun(domain) && |domain| >= 3 && '.' in domain[1..|domain| - 1]
  }

  /** `is_valid_email`: `$` also matches before one final newline. */
  predicate IsValidEmail(email: string) {
    if |email| > 0 && email[|email| - 1] == '\n' then EmailBody(email[..|email| - 1]) else EmailBody(email)
  }

  /**
   * The address is `local@domain`, possibly followed by one newline, where
   * neither side is empty or holds whitespace or `@`, and the domain has a
   * dot at position `dot`, neither its first nor its last character.
   */
  predicate EmailShape(email: string, local: string, domain: string, dot: nat) {
    && (email == local + "@" + domain || email == local + "@" + domain + "\n")
    && EmailRun(local) && EmailRun(domain)
    && 0 < dot < |domain| - 1 && domain[dot] == '.'
  }

  lemma EmailBodyOf(local: string, domain: string, dot: nat)
    requires EmailRun(local) && EmailRun(domain) && 0 < dot < |domain| - 1 && domain[dot] == '.'
    ensures EmailBody(local + "@" + domain)
  {
    var b := local + "@" + domain;
    assert b[|local|] == '@';
    assert forall i :: 0 <= i < |local| ==> b[i] == local[i];
    assert IndexOf(b, '@') == |local|;
    assert b[|local| + 1..] == domain;
    assert b[..|local|] == local;
    assert domain[1..|domain| - 1][dot - 1] == '.';
  }

  /** Every address of the shape above is accepted. */
  lemma EmailShapeValid(email: string, local: string, domain: string, dot: nat)
    requires EmailShape(email, local, domain, dot)
    ensures IsValidEmail(email)
  {
    EmailBodyOf(local, domain, dot);
    var b := local + "@" + domain;
    assert b[|b| - 1] == domain[|domain| - 1];
    if email == b + "\n" {
      assert email[..|email| - 1] == b;
    }
  }

  /** The parts of a matching body. */
  lemma EmailBodySplit(b: string) returns (local: string, domain: string, dot: nat)
    requires EmailBody(b)
    ensures b == local + "@" + domain
    ensures EmailRun(local) && EmailRun(domain) && 0 < dot < |domain| - 1 && domain[dot] == '.'
  {
    var k := IndexOf(b, '@');
    local := b[..k];
    domain := b[k + 1..];
    var inner := domain[1..|domain| - 1];
    var j :| 0 <= j < |inner| && inner[j] == '.';
    dot := j + 1;
    assert b == local + "@" + domain;
  }

  /** Every accepted address has the shape above. */
  lemma ValidEmailShape(email: string) returns (local: string, domain: string, dot: nat)
    requires IsValidEmail(email)
    ensures EmailShape(email, local, domain, dot)
  {
    if |email| > 0 && email[|email| - 1] == '\n' {
      var b := email[..|email| - 1];
      local, domain, dot := EmailBodySplit(b);
      assert email == b + "\n";
    } else {
      local, domain, dot := EmailBodySplit(email);
    }
  }

  // ---------------------------------------------------------------------
  // Date of birth
  // ---------------------------------------------------------------------

  datatype Date = Date(year: nat, month: nat, day: nat)

  function Digit(c: char): int { c as int - '0' as int }

  predicate AllDigits(s: string) { forall i :: 0 <= i < |s| ==> Text.IsDigit(s[i]) }

  /**
   * The `%m` field `1[0-2]|0[1-9]|[1-9]` followed by the `-` separator:
   * its value and its length.
   */
  function MonthField(t: string): (r: Option<(nat, nat)>)
    ensures r.Some? ==> 1 <= r.value.0 <= 12 && 1 <= r.value.1 <= 2 && r.value.1 < |t| && t[r.value.1] == '-'
  {
    if |t| >= 3 && t[2] == '-' && t[0] == '1' && '0' <= t[1] <= '2' then Some((10 + Digit(t[1]), 2))
    else if |t| >= 3 && t[2] == '-' && t[0] == '0' && '1' <= t[1] <= '9' then Some((Digit(t[1]), 2))
    else if |t| >= 2 && t[1] == '-' && '1' <= t[0] <= '9' then Some((Digit(t[0]), 1))
    else None
  }

  /**
   * The `%d` field `3[01]|[12]\d|0[1-9]|[1-9]| [1-9]`, which must reach the
   * end of the text: the first alternative that matches is kept, and any
   * text after it is "unconverted data".
   */
  function DayField(t: string): (r: Option<nat>)
    ensures r.Some? ==> 1 <= r.value <= 31
  {
    if |t| == 2 && t[0] == '3' && '0' <= t[1] <= '1' then Some(30 + Digit(t[1]))
    else if |t| == 2 && '1' <= t[0] <= '2' && Text.IsDigit(t[1]) then Some(10 * Digit(t[0]) + Digit(t[1]))
    else if |t| == 2 && t[0] == '0' && '1' <= t[1] <= '9' then Some(Digit(t[1]))
    else if |t| == 1 && '1' <= t[0] <= '9' then Some(Digit(t[0]))
    else if |t| == 2 && t[0] == ' ' && '1' <= t[1] <= '9' then Some(Digit(t[1]))
    else None
  }

  /** The fields `%Y-%m-%d` read from the text, before any calendar check. */
  function ParseDate(s: string): (r: Option<Date>)
    ensures r.Some? ==> r.value.year < 10000 && 1 <= r.value.month <= 12 && 1 <= r.value.day <= 31
  {
    if |s| < 5 || !AllDigits(s[..4]) || s[4] != '-' then None
    else
      var month := MonthField(s[5..]);
      if month.None? then None
      else
        var day := DayField(s[5 + month.value.1 + 1..]);
        if day.None? then None
        else
          DigitsBound(s[..4]);
          Some(Date(Text.DigitsValue(s[..4]), month.value.0, day.value))
  }

  lemma {:induction false} DigitsBound(s: string)
    requires AllDigits(s)
    ensures Text.DigitsValue(s) < Pow10(|s|)
  {
    if s != [] {
      DigitsBound(s[..|s| - 1]);
    }
  }

  predicate IsLeap(year: int) {
    year % 4 == 0 && (year % 100 != 0 || year % 400 == 0)
  }

  function DaysInMonth(year: int, month: int): int
  {
    if month == 2 then (if IsLeap(year) then 29 else 28)
    else if month == 4 || month == 6 || month == 9 || month == 11 then 30
    else 31
  }

  /** `is_valid_date`: the pattern matches and the date exists (years start at 1). */
  predicate IsValidDate(s: string) {
    var d := ParseDate(s);
    d.Some? && d.value.year >= 1 && d.value.day <= DaysInMonth(d.value.year, d.value.month)
  }

  // Writing dates, for the round trip.

  function Pow10(n: nat): nat { if n == 0 then 1 else 10 * Pow10(n - 1) }

  /** `n` in `width` digits with leading zeros (the low digits when it does not fit). */
  function Pad(n: nat, width: nat): (r: string)
    ensures |r| == width && AllDigits(r)
  {
    if width == 0 then "" else Pad(n / 10, width - 1) + [Text.DigitChar(n % 10)]
  }

  lemma {:induction false} PadValue(n: nat, width: nat)
    requires n < Pow10(width)
    ensures Text.DigitsValue(Pad(n, width)) == n
  {
    if width > 0 {
      PadValue(n / 10, width - 1);
      var r := Pad(n, width);
      assert r[..|r| - 1] == Pad(n / 10, width - 1);
    }
  }

  /** `YYYY-MM-DD`. */
  function FormatDate(d: Date): string
  {
    Pad(d.year, 4) + "-" + Pad(d.month, 2) + "-" + Pad(d.day, 2)
  }

  lemma MonthFieldOfPad(m: nat, rest: string)
    requires 1 <= m <= 12
    ensures MonthField(Pad(m, 2) + "-" + rest) == Some((m, 2))
  {
    var t := Pad(m, 2) + "-" + rest;
    assert t[0] == Text.DigitChar(m / 10) && t[1] == Text.DigitChar(m % 10) && t[2] == '-';
  }

  lemma DayFieldOfPad(d: nat)
    requires 1 <= d <= 31
    ensures DayField(Pad(d, 2)) == Some(d)
  {
    var t := Pad(d, 2);
    assert t[0] == Text.DigitChar(d / 10) && t[1] == Text.DigitChar(d % 10);
  }

  /** Reading a written date gives it back, for every date the pattern can express. */
  lemma ParseFormatDate(d: Date)
    requires d.year < 10000 && 1 <= d.month <= 12 && 1 <= d.day <= 31
    ensures ParseDate(FormatDate(d)) == Some(d)
  {
    var s := FormatDate(d);
    var rest := Pad(d.day, 2);
    assert s[..4] == Pad(d.year, 4);
    assert s[5..] == Pad(d.month, 2) + "-" + rest;
    MonthFieldOfPad(d.month, rest);
    assert s[5 + 2 + 1..] == rest;
    DayFieldOfPad(d.day);
    PadValue(d.year, 4);
  }

  /** A written date is valid exactly when its year is at least 1 and the day exists in that month. */
  lemma FormattedDateValid(d: Date)
    requires d.year < 10000 && 1 <= d.month <= 12 && 1 <= d.day <= 31
    ensures IsValidDate(FormatDate(d)) <==> d.year >= 1 && d.day <= DaysInMonth(d.year, d.month)
  {
    ParseFormatDate(d);
  }

  /** February 29 exists in leap years only. */
  lemma LeapDay(year: nat)
    requires 1 <= year < 10000
    ensures IsValidDate(FormatDate(Date(year, 2, 29))) <==> IsLeap(year)
  {
    FormattedDateValid(Date(year, 2, 29));
  }

  /** February 30 never exists. */
  lemma NoFebruary30(year: nat)
    requires year < 10000
    ensures !IsValidDate(FormatDate(Date(year, 2, 30)))
  {
    FormattedDateValid(Date(year, 2, 30));
  }

  // ---------------------------------------------------------------------
  // Validation
  // ---------------------------------------------------------------------

  /** The checks `validate_registration_input` can fail. */
  datatype RegistrationError =
    | Required(field: string)
    | FirstNameTooShort
    | LastNameTooShort
    | UsernameTooShort
    | UsernameNotAlnum
    | InvalidEmail
    | PasswordTooShort(minLength: int)
    | InvalidDateOfBirth

  function Message(e: RegistrationError): string
  {
    match e
    case Required(field) => field + " is required"
    case FirstNameTooShort => "First name must be at least 2 characters"
    case LastNameTooShort => "Last name must be at least 2 characters"
    case UsernameTooShort => "Username must be at least 3 characters"
    case UsernameNotAlnum => "Username must contain only letters and numbers"
    case InvalidEmail => "Valid email is required"
    case PasswordTooShort(n) => "Password must be at least " + Text.IntToString(n) + " characters"
    case InvalidDateOfBirth => "Valid date of birth is required (YYYY-MM-DD format)"
  }

  const RequiredFields: seq<string> := ["firstName", "lastName", "username", "email", "password", "dateOfBirth"]

  /** `PASSWORD_MIN_LENGTH` when the environment does not set it. */
  const DefaultPasswordMinLength := 8

  /** The "required" errors for `fields`, in order. */
  function RequiredErrors(data: map<string, Value>, show: Value -> string, fields: seq<string>): seq<RegistrationError>
  {
    if fields == [] then []
    else
      var last := fields[|fields| - 1];
      RequiredErrors(data, show, fields[..|fields| - 1]) + (if Missing(Get(data, last), show) then [Required(last)] else [])
  }

  lemma {:induction false} RequiredErrorsIff(data: map<string, Value>, show: Value -> string, fields: seq<string>)
    ensures forall f :: Required(f) in RequiredErrors(data, show, fields) <==> f in fields && Missing(Get(data, f), show)
    ensures forall e :: e in RequiredErrors(data, show, fields) ==> e.Required?
    ensures |RequiredErrors(data, show, fields)| <= |fields|
  {
    if fields != [] {
      var init := fields[..|fields| - 1];
      RequiredErrorsIff(data, show, init);
      assert fields == init + [fields[|fields| - 1]];
    }
  }

  /** Truthy but not a string. */
  predicate NonString(v: Value) { Truthy(v) && !v.Str? }

  /** Where the validator raises: a `.strip()`, `re.match` or `strptime` on a non-string, or a `len()` of a number. */
  predicate Raises(data: map<string, Value>) {
    var password := Get(data, "password");
    || NonString(Get(data, "firstName")) || NonString(Get(data, "lastName")) || NonString(Get(data, "username"))
    || NonString(Get(data, "email")) || NonString(Get(data, "dateOfBirth"))
    || (Truthy(password) && Len(password).None?)
  }

  function ShortNameErrors(v: Value, error: RegistrationError): (r: seq<RegistrationError>)
    ensures forall e :: e in r ==> e == error
  {
    if Truthy(v) && v.Str? && |Text.Strip(v.s)| < 2 then [error] else []
  }

  function UsernameErrors(v: Value): (r: seq<RegistrationError>)
    ensures forall e :: e in r ==> e == UsernameTooShort || e == UsernameNotAlnum
  {
    if Truthy(v) && v.Str? then StrippedUsernameErrors(Text.Strip(v.s)) else []
  }

  /** The checks on the stripped username: at least three characters, letters and digits only. */
  function StrippedUsernameErrors(username: string): (r: seq<RegistrationError>)
    ensures forall e :: e in r ==> e == UsernameTooShort || e == UsernameNotAlnum
  {
    (if |username| < 3 then [UsernameTooShort] else []) + (if !Text.IsAlnumString(username) then [UsernameNotAlnum] else [])
  }

  function EmailErrors(v: Value): (r: seq<RegistrationError>)
    ensures forall e :: e in r ==> e == InvalidEmail
  {
    if Truthy(v) && v.Str? && !IsValidEmail(v.s) then [InvalidEmail] else []
  }

  function PasswordErrors(v: Value, minLength: int): (r: seq<RegistrationError>)
    ensures forall e :: e in r ==> e == PasswordTooShort(minLength)
  {
    if Truthy(v) && Len(v).Some? && Len(v).value < minLength then [PasswordTooShort(minLength)] else []
  }

  function DateErrors(v: Value): (r: seq<RegistrationError>)
    ensures forall e :: e in r ==> e == InvalidDateOfBirth
  {
    if Truthy(v) && v.Str? && !IsValidDate(v.s) then [InvalidDateOfBirth] else []
  }

  /** The errors of the per-field checks that follow the required-field loop. */
  function FieldErrors(data: map<string, Value>, minLength: int): seq<RegistrationError>
  {
    ShortNameErrors(Get(data, "firstName"), FirstNameTooShort)
    + ShortNameErrors(Get(data, "lastName"), LastNameTooShort)
    + UsernameErrors(Get(data, "username"))
    + EmailErrors(Get(data, "email"))
    + PasswordErrors(Get(data, "password"), minLength)
    + DateErrors(Get(data, "dateOfBirth"))
  }

  /** What `validate_registration_input` reports, in the order of its checks. */
  function RegistrationErrors(data: map<string, Value>, show: Value -> string, minLength: int): Result<seq<RegistrationError>>
  {
    if Raises(data) then Err("the validator raised")
    else Ok(RequiredErrors(data, show, RequiredFields) + FieldErrors(data, minLength))
  }

  /** `validate_registration_input`, with `PASSWORD_MIN_LENGTH` given. */
  method ValidateRegistrationInput(data: map<string, Value>, show: Value -> string, minLength: int)
    returns (r: Result<Validation<RegistrationError>>)
    ensures r.Err? <==> RegistrationErrors(data, show, minLength).Err?
    ensures r.Ok? ==> r.value.errors == RegistrationErrors(data, show, minLength).value
    ensures r.Ok? ==> (r.value.isValid <==> r.value.errors == [])
  {
    var errors := CheckRequired(data, show);
    var firstName := CheckShortName(Get(data, "firstName"), FirstNameTooShort);
    var lastName := CheckShortName(Get(data, "lastName"), LastNameTooShort);
    var username := CheckUsername(Get(data, "username"));
    var email := CheckEmail(Get(data, "email"));
    var password := CheckPassword(Get(data, "password"), minLength);
    var dateOfBirth := CheckDate(Get(data, "dateOfBirth"));
    if firstName.Err? || lastName.Err? || username.Err? || email.Err? || password.Err? || dateOfBirth.Err? {
      return Err("the validator raised");
    }
    var fieldErrors := firstName.value + lastName.value + username.value + email.value + password.value + dateOfBirth.value;
    assert fieldErrors == FieldErrors(data, minLength);
    r := Ok(ValidationOf(errors + fieldErrors));
  }

  /** The loop over the required fields. */
  method CheckRequired(data: map<string, Value>, show: Value -> string) returns (errors: seq<RegistrationError>)
    ensures errors == RequiredErrors(data, show, RequiredFields)
  {
    errors := [];
    var i := 0;
    while i < |RequiredFields|
      invariant i <= |RequiredFields|
      invariant errors == RequiredErrors(data, show, RequiredFields[..i])
    {
      var field := RequiredFields[i];
      if Missing(Get(data, field), show) {
        errors := errors + [Required(field)];
      }
      assert RequiredFields[..i + 1][..i] == RequiredFields[..i];
      i := i + 1;
    }
    assert RequiredFields[..i] == RequiredFields;
  }

  /** The first- or last-name length check. */
  method CheckShortName(v: Value, error: RegistrationError) returns (r: Result<seq<RegistrationError>>)
    ensures r.Err? <==> NonString(v)
    ensures r.Ok? ==> r.value == ShortNameErrors(v, error)
  {
    r := Ok([]);
    if Truthy(v) {
      if !v.Str? {
        return Err("object has no attribute 'strip'");
      }
      if |Text.Strip(v.s)| < 2 {
        r := Ok([error]);
      }
    }
  }

  /** The username checks: both can fire for one username. */
  method CheckUsername(v: Value) returns (r: Result<seq<RegistrationError>>)
    ensures r.Err? <==> NonString(v)
    ensures r.Ok? ==> r.value == UsernameErrors(v)
  {
    var errors: seq<RegistrationError> := [];
    if Truthy(v) {
      if !v.Str? {
        return Err("object has no attribute 'strip'");
      }
      var username := Text.Strip(v.s);
      if |username| < 3 {
        errors := errors + [UsernameTooShort];
      }
      if !Text.IsAlnumString(username) {
        errors := errors + [UsernameNotAlnum];
      }
    }
    r := Ok(errors);
  }

  method CheckEmail(v: Value) returns (r: Result<seq<RegistrationError>>)
    ensures r.Err? <==> NonString(v)
    ensures r.Ok? ==> r.value == EmailErrors(v)
  {
    r := Ok([]);
    if Truthy(v) {
      if !v.Str? {
        return Err("expected string or bytes-like object");
      }
      if !IsValidEmail(v.s) {
        r := Ok([InvalidEmail]);
      }
    }
  }

  method CheckPassword(v: Value, minLength: int) returns (r: Result<seq<RegistrationError>>)
    ensures r.Err? <==> Truthy(v) && Len(v).None?
    ensures r.Ok? ==> r.value == PasswordErrors(v, minLength)
  {
    r := Ok([]);
    if Truthy(v) {
      var n := Len(v);
      if n.None? {
        return Err("object has no len()");
      }
      if n.value < minLength {
        r := Ok([PasswordTooShort(minLength)]);
      }
    }
  }

  method CheckDate(v: Value) returns (r: Result<seq<RegistrationError>>)
    ensures r.Err? <==> NonString(v)
    ensures r.Ok? ==> r.value == DateErrors(v)
  {
    r := Ok([]);
    if Truthy(v) {
      if !v.Str? {
        return Err("strptime() argument 1 must be str");
      }
      if !IsValidDate(v.s) {
        r := Ok([InvalidDateOfBirth]);
      }
    }
  }

  // ---------------------------------------------------------------------
  // What the report means
  // ---------------------------------------------------------------------

  /** An error is in the registration report when it is in the required-field part or the per-field part. */
  lemma ReportMember(data: map<string, Value>, show: Value -> string, minLength: int, e: RegistrationError)
    requires RegistrationErrors(data, show, minLength).Ok?
    ensures e in RegistrationErrors(data, show, minLength).value
            <==> e in RequiredErrors(data, show, RequiredFields) || e in FieldErrors(data, minLength)
  {
    var req := RequiredErrors(data, show, RequiredFields);
    var fields := FieldErrors(data, minLength);
    assert RegistrationErrors(data, show, minLength).value == req + fields;
  }

  /** An error is in the per-field report when one of the six checks reports it. */
  lemma FieldMember(data: map<string, Value>, minLength: int, e: RegistrationError)
    ensures e in FieldErrors(data, minLength)
            <==> || e in ShortNameErrors(Get(data, "firstName"), FirstNameTooShort)
                 || e in ShortNameErrors(Get(data, "lastName"), LastNameTooShort)
                 || e in UsernameErrors(Get(data, "username"))
                 || e in EmailErrors(Get(data, "email"))
                 || e in PasswordErrors(Get(data, "password"), minLength)
                 || e in DateErrors(Get(data, "dateOfBirth"))
  {
    var a := ShortNameErrors(Get(data, "firstName"), FirstNameTooShort);
    var b := ShortNameErrors(Get(data, "lastName"), LastNameTooShort);
    var c := UsernameErrors(Get(data, "username"));
    var d := EmailErrors(Get(data, "email"));
    var p := PasswordErrors(Get(data, "password"), minLength);
    var f := DateErrors(Get(data, "dateOfBirth"));
    assert FieldErrors(data, minLength) == a + b + c + d + p + f;
  }

  /** No per-field check reports a field as required. */
  lemma FieldErrorsNotRequired(data: map<string, Value>, minLength: int)
    ensures forall e :: e in FieldErrors(data, minLength) ==> !e.Required?
  {
    forall e | e in FieldErrors(data, minLength)
      ensures !e.Required?
    {
      FieldMember(data, minLength, e);
    }
  }

  /** Each field that is missing or blank is reported as required, and only those. */
  lemma RequiredReported(data: map<string, Value>, show: Value -> string, minLength: int, f: string)
    requires RegistrationErrors(data, show, minLength).Ok?
    ensures Required(f) in RegistrationErrors(data, show, minLength).value <==> f in RequiredFields && Missing(Get(data, f), show)
  {
    RequiredErrorsIff(data, show, RequiredFields);
    FieldErrorsNotRequired(data, minLength);
    ReportMember(data, show, minLength, Required(f));
  }

  /** A per-field error is in the registration report exactly when its check reports it. */
  lemma FieldReported(data: map<string, Value>, show: Value -> string, minLength: int, e: RegistrationError)
    requires RegistrationErrors(data, show, minLength).Ok? && !e.Required?
    ensures e in RegistrationErrors(data, show, minLength).value <==> e in FieldErrors(data, minLength)
  {
    RequiredErrorsIff(data, show, RequiredFields);
    ReportMember(data, show, minLength, e);
  }

  /** A truthy username that strips to nothing fails three checks at once. */
  lemma BlankUsernameThreeErrors(data: map<string, Value>, show: Value -> string, minLength: int)
    requires RegistrationErrors(data, show, minLength).Ok?
    requires Get(data, "username").Str? && Get(data, "username").s != [] && Text.IsBlank(Get(data, "username").s)
    ensures var errors := RegistrationErrors(data, show, minLength).value;
            Required("username") in errors && UsernameTooShort in errors && UsernameNotAlnum in errors
  {
    var v := Get(data, "username");
    RequiredReported(data, show, minLength, "username");
    BlankUsernameErrors(v);
    FieldMember(data, minLength, UsernameTooShort);
    FieldMember(data, minLength, UsernameNotAlnum);
    FieldReported(data, show, minLength, UsernameTooShort);
    FieldReported(data, show, minLength, UsernameNotAlnum);
  }

  /** A non-empty blank username fails both username checks. */
  lemma BlankUsernameErrors(v: Value)
    requires v.Str? && v.s != [] && Text.IsBlank(v.s)
    ensures UsernameErrors(v) == [UsernameTooShort, UsernameNotAlnum]
  {
    assert Text.Strip(v.s) == [];
  }

  /** The password is reported short exactly when its length is below the minimum; the length is not stripped. */
  lemma PasswordReported(data: map<string, Value>, show: Value -> string, minLength: int)
    requires RegistrationErrors(data, show, minLength).Ok?
    ensures var p := Get(data, "password");
            (PasswordTooShort(minLength) in RegistrationErrors(data, show, minLength).value) <==> Truthy(p) && Len(p).value < minLength
  {
    FieldReported(data, show, minLength, PasswordTooShort(minLength));
    FieldMember(data, minLength, PasswordTooShort(minLength));
  }

  /** The e-mail and date parts of the per-field report. */
  lemma FieldErrorsParts(data: map<string, Value>, minLength: int)
    ensures InvalidEmail in FieldErrors(data, minLength) <==> InvalidEmail in EmailErrors(Get(data, "email"))
    ensures InvalidDateOfBirth in FieldErrors(data, minLength) <==> InvalidDateOfBirth in DateErrors(Get(data, "dateOfBirth"))
  {
    FieldMember(data, minLength, InvalidEmail);
    FieldMember(data, minLength, InvalidDateOfBirth);
  }

  /** The e-mail check reports exactly the strings its predicate rejects. */
  lemma EmailReported(data: map<string, Value>, show: Value -> string, minLength: int)
    requires RegistrationErrors(data, show, minLength).Ok?
    ensures var e := Get(data, "email");
            InvalidEmail in RegistrationErrors(data, show, minLength).value <==> Truthy(e) && !IsValidEmail(e.s)
  {
    FieldReported(data, show, minLength, InvalidEmail);
    FieldErrorsParts(data, minLength);
  }

  /** The date check reports exactly the strings its predicate rejects. */
  lemma DateReported(data: map<string, Value>, show: Value -> string, minLength: int)
    requires RegistrationErrors(data, show, minLength).Ok?
    ensures var d := Get(data, "dateOfBirth");
            InvalidDateOfBirth in RegistrationErrors(data, show, minLength).value <==> Truthy(d) && !IsValidDate(d.s)
  {
    FieldReported(data, show, minLength, InvalidDateOfBirth);
    FieldErrorsParts(data, minLength);
  }
}
