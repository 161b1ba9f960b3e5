/**
 * The mock `POST /api/auth/verify-otp` handler: it checks that a phone and a code
 * were sent, accepts the universal code `123456` or the demo account's `123`, and
 * answers with a fixed token and a user record.
 */
module VerifyOtpRoute {
  import opened Wrappers

  const DemoPhone := "+8801885356821"
  const NewUserPhone := "+8801234567890"
  const UniversalCode := "123456"
  const DemoCode := "123"
  const Token := "mock_jwt_token"

  /** The fields of the JSON body; an absent field is `None`. */
  datatype Body = Body(phone: Option<string>, otp: Option<string>)

  datatype User = User(id: string, name: Option<string>, phone: string, isVerified: bool)

  datatype Response =
    | Failure(status: int, error: string)
    | Success(token: string, user: User, isNewUser: bool)

  /** `"` + s + `"`: a JSON string literal; the values the handler produces need no escapes. */
  function Quoted(s: string): (r: string)
    ensures |r| == |s| + 2 && r[0] == '"' && r[|r| - 1] == '"' && r[1..|r| - 1] == s
  {
    "\"" + s + "\""
  }

  /**
   * `JSON.stringify(user)`: the text stored under the `user` key of local storage.
   * It is an object literal, so it is never the empty (falsy) string.
   */
  function UserJson(u: User): (s: string)
    ensures |s| >= 2 && s[0] == '{' && s[|s| - 1] == '}'
  {
    "{\"id\":" + Quoted(u.id)
    + ",\"name\":" + (if u.name.None? then "null" else Quoted(u.name.value))
    + ",\"phone\":" + Quoted(u.phone)
    + ",\"isVerified\":" + (if u.isVerified then "true" else "false") + "}"
  }

  /** JavaScript truthiness of an optional string: absent and empty are falsy. */
  predicate Given(s: Option<string>) {
    s.Some? && s.value != ""
  }

  /** `phone === '+8801885356821' && otp === '123'`. */
  predicate IsDemoAccount(phone: string, otp: string) {
    phone == DemoPhone && otp == DemoCode
  }

  /** The handler; `None` is a body that is not valid JSON, which the `catch` answers with a 500. */
  function Post(body: Option<Body>): (r: Response)
    ensures body.None? ==> r == Failure(500, "Verification failed")
    ensures body.Some? && (!Given(body.value.phone) || !Given(body.value.otp)) ==>
              r == Failure(400, "Phone and OTP are required")
    ensures body.Some? && Given(body.value.phone) && Given(body.value.otp) ==>
              (r.Success? <==> body.value.otp.value == UniversalCode || IsDemoAccount(body.value.phone.value, body.value.otp.value)) &&
              (r.Failure? ==> r == Failure(400, "Invalid OTP")) &&
              (r.Success? ==> r.token == Token && r.user.phone == body.value.phone.value && r.user.isVerified &&
                              (r.isNewUser <==> body.value.phone.value == NewUserPhone))
  {
    if body.None? then Failure(500, "Verification failed")
    else if !Given(body.value.phone) || !Given(body.value.otp) then Failure(400, "Phone and OTP are required")
    else
      var phone := body.value.phone.value;
      var otp := body.value.otp.value;
      var isDemo := IsDemoAccount(phone, otp);
      if otp != UniversalCode && !isDemo then Failure(400, "Invalid OTP")
      else
        var isNewUser := phone == NewUserPhone;
        var user := User(if isDemo then "demo_user" else "user_123",
                         if isDemo then Some("Demo Account") else if isNewUser then None else Some("Asif Rabetul"),
                         phone, true);
        Success(Token, user, isNewUser || user.name.None?)
  }

  /** A request with both fields present. */
  function Request(phone: string, otp: string): Option<Body> {
    Some(Body(Some(phone), Some(otp)))
  }

  /** Without a phone or a code the answer is the 400 "required" error, whatever else was sent. */
  lemma MissingFieldRejected(body: Body)
    requires !Given(body.phone) || !Given(body.otp)
    ensures Post(Some(body)) == Failure(400, "Phone and OTP are required")
  {
  }

  /**
   * A request with both fields is accepted exactly when the code is `123456`, or the
   * phone is the demo account's and the code is `123`; any other code is a 400 "Invalid OTP".
   */
  lemma AcceptRule(phone: string, otp: string)
    requires phone != "" && otp != ""
    ensures Post(Request(phone, otp)).Success? <==> otp == UniversalCode || IsDemoAccount(phone, otp)
    ensures Post(Request(phone, otp)).Failure? ==> Post(Request(phone, otp)) == Failure(400, "Invalid OTP")
  {
  }

  /**
   * An accepted login echoes the phone, is verified, carries the fixed token, and is
   * a new user exactly for the one "new" number; only the demo code logs in as the demo user.
   */
  lemma AcceptedResponse(phone: string, otp: string)
    requires Post(Request(phone, otp)).Success?
    ensures var r := Post(Request(phone, otp));
      r.token == Token && r.user.phone == phone && r.user.isVerified &&
      (r.isNewUser <==> phone == NewUserPhone) &&
      (r.user.id == "demo_user" <==> IsDemoAccount(phone, otp)) &&
      (r.user.id == "demo_user" || r.user.id == "user_123") &&
      (r.user.name == Some("Demo Account") <==> IsDemoAccount(phone, otp)) &&
      (r.user.name.None? <==> phone == NewUserPhone)
  {
    assert DemoPhone != NewUserPhone by {
      assert DemoPhone[5] != NewUserPhone[5];
    }
  }

  /** The demo phone with the universal code is an ordinary login, not the demo account. */
  lemma DemoPhoneUniversalCode()
    ensures Post(Request(DemoPhone, UniversalCode)).Success?
    ensures Post(Request(DemoPhone, UniversalCode)).user.id == "user_123"
    ensures Post(Request(DemoPhone, UniversalCode)).user.name == Some("Asif Rabetul")
  {
    assert DemoPhone != NewUserPhone by {
      assert DemoPhone[5] != NewUserPhone[5];
    }
  }
}
