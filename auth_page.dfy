/**
 * The combined phone-and-code sign-in page: a phone step and a code step, each
 * form checked for length before a simulated one-and-a-half-second request.
 */
module AuthPage {
  import opened Wrappers
  import opened Navigation

  datatype AuthStep = PhoneEntry | OtpEntry

  /** The simulated request a submit has scheduled. */
  datatype Pending = ToOtpStep | ToHome

  const PhoneError := "Please enter a valid mobile number"
  const OtpError := "Please enter the 6-digit code"

  /** The shortest phone the page accepts, and the code length it requires. */
  const MinPhoneLength := 11
  const OtpLength := 6

  /** The page's state; `pending` is the `setTimeout` callback waiting to run. */
  class AuthPageView {
    var step: AuthStep
    var phone: string
    var otp: string
    var isLoading: bool
    var error: string
    var pending: Option<Pending>

    constructor()
      ensures step == PhoneEntry && phone == "" && otp == "" && !isLoading && error == "" && pending == None
    {
      step, phone, otp := PhoneEntry, "", "";
      isLoading, error, pending := false, "", None;
    }

    method SetPhone(text: string)
      modifies this
      ensures phone == text && step == old(step) && otp == old(otp) && error == old(error)
      ensures isLoading == old(isLoading) && pending == old(pending)
    {
      phone := text;
    }

    /** The code box keeps at most six characters. */
    method SetOtp(text: string)
      requires |text| <= OtpLength
      modifies this
      ensures otp == text && step == old(step) && phone == old(phone) && error == old(error)
      ensures isLoading == old(isLoading) && pending == old(pending)
    {
      otp := text;
    }

    /**
     * The phone form clears the previous error; a number shorter than eleven
     * characters sets the error and stays, any other starts the request that will
     * lead to the code step. The characters themselves are not checked.
     */
    method HandlePhoneSubmit()
      modifies this
      ensures |phone| < MinPhoneLength ==> error == PhoneError && isLoading == old(isLoading) && pending == old(pending)
      ensures |phone| >= MinPhoneLength ==> error == "" && isLoading && pending == Some(ToOtpStep)
      ensures step == old(step) && phone == old(phone) && otp == old(otp)
    {
      error := "";
      if |phone| < MinPhoneLength {
        error := PhoneError;
        return;
      }
      isLoading := true;
      pending := Some(ToOtpStep);
    }

    /** The code form: the same shape, with a length of exactly six and the home page at the end. */
    method HandleOtpSubmit()
      modifies this
      ensures |otp| != OtpLength ==> error == OtpError && isLoading == old(isLoading) && pending == old(pending)
      ensures |otp| == OtpLength ==> error == "" && isLoading && pending == Some(ToHome)
      ensures step == old(step) && phone == old(phone) && otp == old(otp)
    {
      error := "";
      if |otp| != OtpLength {
        error := OtpError;
        return;
      }
      isLoading := true;
      pending := Some(ToHome);
    }

    /** The simulated request finishes: loading stops and the scheduled move is made. */
    method Elapse() returns (dest: Destination)
      modifies this
      ensures old(pending) == Some(ToOtpStep) ==> step == OtpEntry && !isLoading && dest == Stay
      ensures old(pending) == Some(ToHome) ==> step == old(step) && !isLoading && dest == HomeRoute
      ensures old(pending) == None ==> step == old(step) && isLoading == old(isLoading) && dest == Stay
      ensures pending == None && phone == old(phone) && otp == old(otp) && error == old(error)
    {
      dest := Stay;
      if pending == Some(ToOtpStep) {
        isLoading := false;
        step := OtpEntry;
      } else if pending == Some(ToHome) {
        isLoading := false;
        dest := HomeRoute;
      }
      pending := None;
    }

    /** Change Number, back to the phone step. */
    method ChangeNumber()
      modifies this
      ensures step == PhoneEntry && phone == old(phone) && otp == old(otp) && error == old(error)
      ensures isLoading == old(isLoading) && pending == old(pending)
    {
      step := PhoneEntry;
    }
  }

  /**
   * The page seen as a function of the typed phone: a long enough number reaches
   * the code step with no error once the request finishes; a short one never leaves
   * the phone step and shows the phone error.
   */
  method PhoneFlow(typed: string) returns (step: AuthStep, error: string)
    ensures |typed| >= MinPhoneLength <==> step == OtpEntry
    ensures |typed| >= MinPhoneLength ==> error == ""
    ensures |typed| < MinPhoneLength ==> step == PhoneEntry && error == PhoneError
  {
    var page := new AuthPageView();
    page.SetPhone(typed);
    page.HandlePhoneSubmit();
    var dest := page.Elapse();
    step, error := page.step, page.error;
  }

  /** The same for the code: exactly a six-character code reaches the home page. */
  method OtpFlow(typed: string) returns (dest: Destination, error: string)
    requires |typed| <= OtpLength
    ensures |typed| == OtpLength <==> dest == HomeRoute
    ensures |typed| == OtpLength ==> error == ""
    ensures |typed| < OtpLength ==> dest == Stay && error == OtpError
  {
    var page := new AuthPageView();
    page.SetOtp(typed);
    page.HandleOtpSubmit();
    dest := page.Elapse();
    error := page.error;
  }
}
