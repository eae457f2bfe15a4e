/** The input guards of the authentication controller (register, login, forgot-password,
    verify-OTP, reset-password), the email pattern they share, the six-digit OTP format, the
    OTP generator and the expiry test. The database lookups, hashing and mail sending between
    the guards are outside the model: a lookup's result is a parameter. */
module AuthController {
  import opened Wrappers
  import opened JsText
  import opened Http

  // ---------------------------------------------------------------------------------------
  // The email pattern ^[^\s@]+@[^\s@]+\.[^\s@]+$

  /** A character of the class `[^\s@]`. */
  predicate IsEmailChar(c: char) {
    !IsWhitespace(c) && c != '@'
  }

  predicate AllEmailChars(s: string) {
    forall k :: 0 <= k < |s| ==> IsEmailChar(s[k])
  }

  /** The regular expression read literally: a non-empty run, '@', a non-empty run, '.', a
      non-empty run, each run drawn from `[^\s@]`, covering the whole string. */
  predicate MatchesEmailPattern(s: string) {
    exists i, j :: && 0 < i && i + 1 < j && j + 1 < |s| && s[i] == '@' && s[j] == '.'
                   && AllEmailChars(s[..i]) && AllEmailChars(s[i + 1..j]) && AllEmailChars(s[j + 1..])
  }

  predicate NoWhitespace(s: string) {
    forall k :: 0 <= k < |s| ==> !IsWhitespace(s[k])
  }

  /** A '.' that is neither the first nor the last character. */
  predicate HasInnerDot(d: string) {
    exists k :: 0 < k < |d| - 1 && d[k] == '.'
  }

  /** The same language described by its parts: no whitespace, exactly one '@', a non-empty
      local part, and a domain with a '.' strictly inside it. */
  predicate IsWellFormedEmail(s: string) {
    && NoWhitespace(s)
    && Count(s, '@') == 1
    && exists i :: 0 < i < |s| && s[i] == '@' && HasInnerDot(s[i + 1..])
  }

  /** A slice is drawn from `[^\s@]` exactly when each of its positions in the whole string is. */
  lemma EmailCharsSlice(s: string, lo: int, hi: int)
    requires 0 <= lo <= hi <= |s|
    ensures AllEmailChars(s[lo..hi]) <==> forall k :: lo <= k < hi ==> IsEmailChar(s[k])
  {
    assert forall k :: lo <= k < hi ==> s[k] == s[lo..hi][k - lo];
  }

  /** The '@' of a string with exactly one '@' splits it into '@'-free parts. */
  lemma SingleAt(s: string, i: int)
    requires 0 <= i < |s| && s[i] == '@'
    ensures Count(s, '@') == 1 <==> forall k :: 0 <= k < |s| && k != i ==> s[k] != '@'
  {
    var a, d := s[..i], s[i + 1..];
    assert s == a + ([s[i]] + d);
    CountAppend(a, [s[i]] + d, '@');
    CountAppend([s[i]], d, '@');
    CountZero(a, '@');
    CountZero(d, '@');
    assert forall k :: 0 <= k < i ==> s[k] == a[k];
    assert forall k :: i < k < |s| ==> s[k] == d[k - i - 1];
  }

  lemma EmailPatternIsWellFormed(s: string)
    requires MatchesEmailPattern(s)
    ensures IsWellFormedEmail(s)
  {
    var i, j :| && 0 < i && i + 1 < j && j + 1 < |s| && s[i] == '@' && s[j] == '.'
                && AllEmailChars(s[..i]) && AllEmailChars(s[i + 1..j]) && AllEmailChars(s[j + 1..]);
    EmailCharsSlice(s, 0, i);
    EmailCharsSlice(s, i + 1, j);
    EmailCharsSlice(s, j + 1, |s|);
    assert forall k :: 0 <= k < |s| && k != i ==> IsEmailChar(s[k]) by {
      forall k | 0 <= k < |s| && k != i ensures IsEmailChar(s[k]) {
        if k < i {
        } else if k < j {
        } else if k > j {
        }
      }
    }
    SingleAt(s, i);
    assert NoWhitespace(s) by {
      forall k | 0 <= k < |s| ensures !IsWhitespace(s[k]) {
        if k == i {
          assert s[k] == '@';
        }
      }
    }
    var d := s[i + 1..];
    assert d[j - i - 1] == '.';
    assert HasInnerDot(d);
  }

  lemma WellFormedIsEmailPattern(s: string)
    requires IsWellFormedEmail(s)
    ensures MatchesEmailPattern(s)
  {
    var i :| 0 < i < |s| && s[i] == '@' && HasInnerDot(s[i + 1..]);
    var d := s[i + 1..];
    var k :| 0 < k < |d| - 1 && d[k] == '.';
    var j := i + 1 + k;
    assert s[j] == '.';
    SingleAt(s, i);
    assert forall m :: 0 <= m < |s| && m != i ==> IsEmailChar(s[m]) by {
      forall m | 0 <= m < |s| && m != i ensures IsEmailChar(s[m]) {
        assert !IsWhitespace(s[m]);
      }
    }
    EmailCharsSlice(s, 0, i);
    EmailCharsSlice(s, i + 1, j);
    EmailCharsSlice(s, j + 1, |s|);
    assert AllEmailChars(s[..i]) && AllEmailChars(s[i + 1..j]) && AllEmailChars(s[j + 1..]);
    assert 0 < i && i + 1 < j && j + 1 < |s| && s[i] == '@' && s[j] == '.';
  }

  /** The pattern accepts exactly the well-formed addresses. */
  lemma EmailPatternCharacterised(s: string)
    ensures MatchesEmailPattern(s) <==> IsWellFormedEmail(s)
  {
    if MatchesEmailPattern(s) {
      EmailPatternIsWellFormed(s);
    }
    if IsWellFormedEmail(s) {
      WellFormedIsEmailPattern(s);
    }
  }

  // ---------------------------------------------------------------------------------------
  // Passwords and OTPs

  /** `password.length < 6`, the length counted in UTF-16 code units. */
  predicate PasswordTooShort(password: string) {
    Utf16Length(password) < 6
  }

  /** `/^\d{6}$/`: exactly six ASCII digits. */
  predicate IsOtpFormat(otp: string) {
    |otp| == 6 && forall k :: 0 <= k < 6 ==> IsAsciiDigit(otp[k])
  }

  /** Five minutes, in milliseconds. */
  const OtpLifetime: int := 5 * 60 * 1000

  /** The expiry stored with a new OTP issued at `now` (epoch milliseconds): the OTP passes the
      expiry test at exactly the times up to five minutes after `now`, provided the stored
      expiry is not the value 0 that the test reads as absent. */
  function OtpExpiry(now: int): (expiry: int)
    ensures expiry > now
    ensures forall t :: !IsExpired(Some(expiry), t) <==> expiry != 0 && t <= now + 300000
  {
    now + OtpLifetime
  }

  /** `!user.otp_expiry || currentTime > user.otp_expiry`. */
  predicate IsExpired(expiry: Option<int>, now: int) {
    expiry.None? || expiry.value == 0 || now > expiry.value
  }

  /** `generateOTP` for the value `r` that `Math.random()` returned. */
  function GenerateOtp(r: real): (otp: string)
    requires 0.0 <= r < 1.0
    ensures IsOtpFormat(otp)
    ensures 100000 <= DecimalValue(otp) <= 999999
  {
    var n := (100000.0 + r * 900000.0).Floor;
    assert 100000 <= n < 1000000;
    assert Pow10(5) == 100000 && Pow10(6) == 1000000;
    DecimalLength(n, 6);
    DecimalRoundTrip(n);
    DecimalString(n)
  }

  /** The OTP row a successful forgot-password request stores: the code and its expiry. */
  datatype OtpRecord = OtpRecord(code: string, expiry: Option<int>)

  function IssueOtp(r: real, now: int): (record: OtpRecord)
    requires 0.0 <= r < 1.0
    ensures IsOtpFormat(record.code) && record.expiry == Some(now + 300000)
  {
    OtpRecord(GenerateOtp(r), Some(OtpExpiry(now)))
  }

  /** An OTP issued at a time `now >= 0` stays valid up to and including `now + 300000` and
      is expired at every later time. */
  lemma IssuedOtpLifetime(r: real, now: int, t: int)
    requires 0.0 <= r < 1.0 && now >= 0
    ensures !IsExpired(IssueOtp(r, now).expiry, t) <==> t <= now + 300000
  {
  }

  // ---------------------------------------------------------------------------------------
  // Guards

  /** What the guards of a handler decide: carry on to the database step, or answer with an error. */
  datatype Check = Pass | Fail(error: ErrorResponse)

  function BadRequest(message: string): Check {
    Fail(ErrorResponse(400, message))
  }

  const EmailAndPasswordRequired: string := "Email and password are required"
  const ProvideValidEmail: string := "Please provide a valid email address"
  const PasswordTooShortMessage: string := "Password must be at least 6 characters long"
  const EmailRequired: string := "Email is required"
  const InvalidEmailFormat: string := "Invalid email format"
  const EmailAndOtpRequired: string := "Email and OTP are required"
  const InvalidOtpFormat: string := "Invalid OTP format"
  const AllThreeRequired: string := "Email, OTP, and new password are required"
  const InvalidOtp: string := "Invalid OTP"
  const OtpExpired: string := "OTP has expired"

  /** `register`: both fields present, then the email pattern, then the password length. */
  function RegisterCheck(email: Option<string>, password: Option<string>): Check {
    if !Given(email) || !Given(password) then BadRequest(EmailAndPasswordRequired)
    else if !MatchesEmailPattern(email.value) then BadRequest(ProvideValidEmail)
    else if PasswordTooShort(password.value) then BadRequest(PasswordTooShortMessage)
    else Pass
  }

  /** `login`: only presence is checked before the lookup. */
  function LoginCheck(email: Option<string>, password: Option<string>): Check {
    if !Given(email) || !Given(password) then BadRequest(EmailAndPasswordRequired) else Pass
  }

  /** `forgotPassword`: presence, then the email pattern. */
  function ForgotPasswordCheck(email: Option<string>): Check {
    if !Given(email) then BadRequest(EmailRequired)
    else if !MatchesEmailPattern(email.value) then BadRequest(InvalidEmailFormat)
    else Pass
  }

  /** `verifyOTP`: presence, then the email pattern, then the OTP format. */
  function VerifyOtpCheck(email: Option<string>, otp: Option<string>): Check {
    if !Given(email) || !Given(otp) then BadRequest(EmailAndOtpRequired)
    else if !MatchesEmailPattern(email.value) then BadRequest(InvalidEmailFormat)
    else if !IsOtpFormat(otp.value) then BadRequest(InvalidOtpFormat)
    else Pass
  }

  /** `resetPassword`: presence of all three, the email pattern, the password length, then the OTP format. */
  function ResetPasswordCheck(email: Option<string>, otp: Option<string>, newPassword: Option<string>): Check {
    if !Given(email) || !Given(otp) || !Given(newPassword) then BadRequest(AllThreeRequired)
    else if !MatchesEmailPattern(email.value) then BadRequest(InvalidEmailFormat)
    else if PasswordTooShort(newPassword.value) then BadRequest(PasswordTooShortMessage)
    else if !IsOtpFormat(otp.value) then BadRequest(InvalidOtpFormat)
    else Pass
  }

  /** After the guards of verify-OTP and reset-password: no row matching email and code is
      "Invalid OTP", an expired row is "OTP has expired", otherwise the OTP is accepted. */
  function OtpRowCheck(row: Option<OtpRecord>, now: int): Check {
    if row.None? then BadRequest(InvalidOtp)
    else if IsExpired(row.value.expiry, now) then BadRequest(OtpExpired)
    else Pass
  }

  /** The whole decision of `verifyOTP` (and the part of `resetPassword` before hashing), given
      the row the lookup would return and the current time. */
  function OtpDecision(guard: Check, row: Option<OtpRecord>, now: int): Check {
    if guard.Fail? then guard else OtpRowCheck(row, now)
  }

  // ---------------------------------------------------------------------------------------
  // Properties

  /** A missing field is reported before any format problem, whatever the other fields hold. */
  lemma MissingFieldsFirst(email: Option<string>, password: Option<string>, otp: Option<string>)
    ensures !Given(email) || !Given(password) ==>
      RegisterCheck(email, password) == BadRequest(EmailAndPasswordRequired)
      && LoginCheck(email, password) == BadRequest(EmailAndPasswordRequired)
    ensures !Given(email) ==> ForgotPasswordCheck(email) == BadRequest(EmailRequired)
    ensures !Given(email) || !Given(otp) ==> VerifyOtpCheck(email, otp) == BadRequest(EmailAndOtpRequired)
    ensures !Given(email) || !Given(otp) || !Given(password) ==>
      ResetPasswordCheck(email, otp, password) == BadRequest(AllThreeRequired)
  {
  }

  /** Registration passes its guards exactly when both fields are given, the email is well
      formed and the password has at least six UTF-16 code units; six is enough. */
  lemma RegisterAccepts(email: string, password: string)
    ensures RegisterCheck(Some(email), Some(password)) == Pass <==>
      email != "" && password != "" && IsWellFormedEmail(email) && Utf16Length(password) >= 6
    ensures email != "" && MatchesEmailPattern(email) && Utf16Length(password) == 6 ==>
      RegisterCheck(Some(email), Some(password)) == Pass
  {
    EmailPatternCharacterised(email);
  }

  /** Reset-password checks, in order: presence, email, password length, OTP format; each
      error is reported exactly when every earlier check passed and its own fails. */
  lemma ResetPasswordOrder(email: string, otp: string, newPassword: string)
    requires email != "" && otp != "" && newPassword != ""
    ensures var r := ResetPasswordCheck(Some(email), Some(otp), Some(newPassword));
      && (r == BadRequest(InvalidEmailFormat) <==> !IsWellFormedEmail(email))
      && (r == BadRequest(PasswordTooShortMessage) <==> IsWellFormedEmail(email) && Utf16Length(newPassword) < 6)
      && (r == BadRequest(InvalidOtpFormat) <==>
            IsWellFormedEmail(email) && Utf16Length(newPassword) >= 6 && !IsOtpFormat(otp))
      && (r == Pass <==> IsWellFormedEmail(email) && Utf16Length(newPassword) >= 6 && IsOtpFormat(otp))
  {
    EmailPatternCharacterised(email);
  }

  /** Login passes its guards exactly when both fields are given; nothing about their form is checked. */
  lemma LoginAccepts(email: Option<string>, password: Option<string>)
    ensures LoginCheck(email, password) == Pass <==> Given(email) && Given(password)
    ensures LoginCheck(email, password) != Pass ==> LoginCheck(email, password) == BadRequest(EmailAndPasswordRequired)
  {
  }

  /** Forgot-password checks, in order: presence, then the email. */
  lemma ForgotPasswordOrder(email: string)
    requires email != ""
    ensures ForgotPasswordCheck(Some(email)) == BadRequest(InvalidEmailFormat) <==> !IsWellFormedEmail(email)
    ensures ForgotPasswordCheck(Some(email)) == Pass <==> IsWellFormedEmail(email)
  {
    EmailPatternCharacterised(email);
  }

  /** Verify-OTP checks, in order: presence, email, OTP format. */
  lemma VerifyOtpOrder(email: string, otp: string)
    requires email != "" && otp != ""
    ensures var r := VerifyOtpCheck(Some(email), Some(otp));
      && (r == BadRequest(InvalidEmailFormat) <==> !IsWellFormedEmail(email))
      && (r == BadRequest(InvalidOtpFormat) <==> IsWellFormedEmail(email) && !IsOtpFormat(otp))
      && (r == Pass <==> IsWellFormedEmail(email) && IsOtpFormat(otp))
  {
    EmailPatternCharacterised(email);
  }

  /** When a guard fails, neither the lookup's row nor the clock matters; an expiry equal to
      the current time is still valid. */
  lemma OtpDecisionFacts(guard: Check, row: Option<OtpRecord>, now: int, r2: Option<OtpRecord>, t2: int)
    ensures guard.Fail? ==> OtpDecision(guard, row, now) == OtpDecision(guard, r2, t2) == guard
    ensures guard == Pass && row.Some? && row.value.expiry == Some(now) && now != 0 ==>
      OtpDecision(guard, row, now) == Pass
    ensures guard == Pass && row.None? ==> OtpDecision(guard, row, now) == BadRequest(InvalidOtp)
    ensures guard == Pass && row.Some? ==>
      (OtpDecision(guard, row, now) == BadRequest(OtpExpired) <==> IsExpired(row.value.expiry, now))
  {
  }

  /** A freshly issued OTP is always accepted by the format guard of verify-OTP, and is
      accepted by the expiry test exactly within its five minutes. */
  lemma IssuedOtpVerifies(email: string, r: real, now: int, t: int)
    requires 0.0 <= r < 1.0 && now >= 0 && email != "" && IsWellFormedEmail(email)
    ensures var record := IssueOtp(r, now);
      && VerifyOtpCheck(Some(email), Some(record.code)) == Pass
      && (OtpDecision(Pass, Some(record), t) == Pass <==> t <= now + 300000)
  {
    EmailPatternCharacterised(email);
  }
}
