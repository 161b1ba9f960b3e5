/** The login page: the number is formatted, the code is sent, and the number is handed to the verify page. */
module Login {
  import opened Wrappers
  import opened Phone
  import opened Navigation

  class LoginPage {
    var phone: string
    /** The `auth_phone` entry of local storage. */
    var authPhone: Option<string>

    constructor(stored: Option<string>)
      ensures phone == "" && authPhone == stored
    {
      phone := "";
      authPhone := stored;
    }

    method SetPhone(text: string)
      modifies this
      ensures phone == text && authPhone == old(authPhone)
    {
      phone := text;
    }

    /**
     * Get OTP. `sent` is whether the send-otp request answered with a 2xx status.
     * On success the formatted number is stored for the verify page and the visitor
     * is sent there; on failure nothing is stored and the page stays.
     */
    method HandleSendOtp(sent: bool) returns (dest: Destination)
      modifies this
      ensures sent ==> authPhone == Some(Normalize(old(phone))) && dest == VerifyRoute
      ensures !sent ==> authPhone == old(authPhone) && dest == Stay
      ensures phone == old(phone)
    {
      var formatted := Normalize(phone);
      if sent {
        authPhone := Some(formatted);
        dest := VerifyRoute;
      } else {
        dest := Stay;
      }
    }
  }
}
