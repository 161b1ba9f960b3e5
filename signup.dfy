/**
 * The signup page: name and password, then the phone number, then the code sent
 * to it, with a thirty-second countdown before the code can be sent again.
 */
module Signup {
  import opened Wrappers
  import opened Phone
  import opened Navigation
  import opened Listings
  import opened VerifyOtpRoute
  import opened PostCard

  datatype SignupStep = DetailsStep | PhoneStep | VerifyStep

  /** The countdown's starting value, in seconds. */
  const ResendDelay := 30

  /** One second of the countdown: it runs only on the verify step and only while above zero. */
  function TickOf(step: SignupStep, timer: int): (t: int)
    ensures step == VerifyStep && timer > 0 ==> t == timer - 1
    ensures !(step == VerifyStep && timer > 0) ==> t == timer
  {
    if step == VerifyStep && timer > 0 then timer - 1 else timer
  }

  /** `n` seconds of the countdown. */
  function Ticks(step: SignupStep, timer: int, n: nat): int
    decreases n
  {
    if n == 0 then timer else Ticks(step, TickOf(step, timer), n - 1)
  }

  /** On the verify step the countdown goes down one per second, stops at zero and never goes below it. */
  lemma {:induction false} TicksSaturate(timer: nat, n: nat)
    ensures Ticks(VerifyStep, timer, n) == (if n <= timer then timer - n else 0)
    decreases n
  {
    if n > 0 {
      TicksSaturate(TickOf(VerifyStep, timer), n - 1);
    }
  }

  /** Off the verify step the countdown stands still. */
  lemma {:induction false} TicksFrozen(step: SignupStep, timer: int, n: nat)
    requires step != VerifyStep
    ensures Ticks(step, timer, n) == timer
    decreases n
  {
    if n > 0 {
      TicksFrozen(step, timer, n - 1);
    }
  }

  /** The page's state. */
  class SignupPage {
    var step: SignupStep
    var timer: int
    var name: string
    var password: string
    var phone: string
    var otp: string
    /** The `token` and `user` entries of local storage, written by a successful verification. */
    var storedToken: Option<string>
    var storedUser: Option<string>

    predicate Valid()
      reads this
    {
      0 <= timer <= ResendDelay
    }

    /** The details step with empty fields and a full countdown; local storage holds what it held. */
    constructor(token: Option<string>, user: Option<string>)
      ensures Valid()
      ensures step == DetailsStep && timer == ResendDelay
      ensures name == "" && password == "" && phone == "" && otp == ""
      ensures storedToken == token && storedUser == user
    {
      step := DetailsStep;
      timer := ResendDelay;
      name, password, phone, otp := "", "", "", "";
      storedToken, storedUser := token, user;
    }

    /** Typing into the name, password and phone inputs. */
    method Edit(newName: string, newPassword: string, newPhone: string)
      modifies this
      ensures name == newName && password == newPassword && phone == newPhone
      ensures step == old(step) && timer == old(timer) && otp == old(otp)
      ensures storedToken == old(storedToken) && storedUser == old(storedUser)
    {
      name, password, phone := newName, newPassword, newPhone;
    }

    /** The details form moves on to the phone step only when a name and a password are given. */
    method HandleDetailsSubmit()
      modifies this
      ensures name != "" && password != "" ==> step == PhoneStep
      ensures !(name != "" && password != "") ==> step == old(step)
      ensures timer == old(timer) && phone == old(phone)
      ensures name == old(name) && password == old(password) && otp == old(otp)
      ensures storedToken == old(storedToken) && storedUser == old(storedUser)
    {
      if name == "" || password == "" {
        return;
      }
      step := PhoneStep;
    }

    /**
     * The phone form. `sent` is whether the send-otp request answered with a 2xx
     * status. On success the formatted number replaces the typed one, the page moves
     * to the verify step and the countdown restarts; on failure nothing changes.
     */
    method HandlePhoneSubmit(sent: bool)
      requires Valid()
      modifies this
      ensures Valid()
      ensures sent ==> phone == Normalize(old(phone)) && step == VerifyStep && timer == ResendDelay
      ensures !sent ==> phone == old(phone) && step == old(step) && timer == old(timer)
      ensures name == old(name) && password == old(password) && otp == old(otp)
      ensures storedToken == old(storedToken) && storedUser == old(storedUser)
    {
      var formatted := Normalize(phone);
      if sent {
        phone := formatted;
        step := VerifyStep;
        timer := ResendDelay;
      }
    }

    /** One second of the countdown interval. */
    method Tick()
      requires Valid()
      modifies this
      ensures Valid()
      ensures timer == TickOf(old(step), old(timer))
      ensures step == old(step) && phone == old(phone)
      ensures name == old(name) && password == old(password) && otp == old(otp)
      ensures storedToken == old(storedToken) && storedUser == old(storedUser)
    {
      if step == VerifyStep && timer > 0 {
        timer := timer - 1;
      }
    }

    /** Back, from the phone step to the details. */
    method Back()
      modifies this
      ensures step == DetailsStep && timer == old(timer) && phone == old(phone)
      ensures name == old(name) && password == old(password) && otp == old(otp)
      ensures storedToken == old(storedToken) && storedUser == old(storedUser)
    {
      step := DetailsStep;
    }

    /** Change Number, from the verify step back to the phone. */
    method ChangeNumber()
      modifies this
      ensures step == PhoneStep && timer == old(timer) && phone == old(phone)
      ensures name == old(name) && password == old(password) && otp == old(otp)
      ensures storedToken == old(storedToken) && storedUser == old(storedUser)
    {
      step := PhoneStep;
    }

    /** Resend: once the send-otp request has completed, whatever its status, the countdown restarts. */
    method HandleResend(completed: bool)
      requires Valid()
      modifies this
      ensures Valid()
      ensures completed ==> timer == ResendDelay
      ensures !completed ==> timer == old(timer)
      ensures step == old(step) && phone == old(phone)
      ensures name == old(name) && password == old(password) && otp == old(otp)
      ensures storedToken == old(storedToken) && storedUser == old(storedUser)
    {
      if completed {
        timer := ResendDelay;
      }
    }

    /**
     * The code is complete. `answer` is the verify-otp answer, `None` when the request
     * or the reading of its JSON threw. A verified answer stores the token and the
     * user record at once; then the complete-profile request is sent, and
     * `profileSaved` says whether it resolved (whatever its status). Only then does
     * the visitor go to the dashboard: a request that throws is caught with an alert
     * and the page stays, with token and user already stored.
     */
    method HandleVerify(answer: Option<Response>, profileSaved: bool) returns (dest: Destination)
      modifies this
      ensures answer.Some? && answer.value.Success? ==>
                storedToken == Some(answer.value.token) && storedUser == Some(UserJson(answer.value.user)) &&
                dest == (if profileSaved then DashboardRoute else Stay)
      ensures !(answer.Some? && answer.value.Success?) ==>
                storedToken == old(storedToken) && storedUser == old(storedUser) && dest == Stay
      ensures step == old(step) && timer == old(timer) && phone == old(phone)
      ensures name == old(name) && password == old(password) && otp == old(otp)
    {
      dest := Stay;
      if answer.None? || answer.value.Failure? {
        return;
      }
      storedToken := Some(answer.value.token);
      storedUser := Some(UserJson(answer.value.user));
      if profileSaved {
        dest := DashboardRoute;
      }
    }
  }

  /**
   * Back from the phone step keeps what was typed: submitting the details again
   * leads straight back to the phone step, with the number and the storage intact.
   */
  method BackThenNext(newName: string, newPassword: string, newPhone: string,
                      token: Option<string>, user: Option<string>)
    returns (step: SignupStep, phone: string, storedToken: Option<string>, storedUser: Option<string>)
    requires newName != "" && newPassword != ""
    ensures step == PhoneStep && phone == newPhone
    ensures storedToken == token && storedUser == user
  {
    var page := new SignupPage(token, user);
    page.Edit(newName, newPassword, newPhone);
    page.HandleDetailsSubmit();
    page.Back();
    page.HandleDetailsSubmit();
    step, phone, storedToken, storedUser := page.step, page.phone, page.storedToken, page.storedUser;
  }

  /**
   * Signing up enables liking: after a verified code the `user` entry is set, so the
   * heart of any card flips instead of sending the visitor to login, whether or not
   * the profile request went through.
   */
  method VerifyThenLike(answer: Response, profileSaved: bool, p: Listing)
    returns (dest: Destination, likeDest: Destination, liked: bool)
    requires answer.Success?
    ensures dest == (if profileSaved then DashboardRoute else Stay)
    ensures likeDest == Stay && liked
  {
    var page := new SignupPage(None, None);
    dest := page.HandleVerify(Some(answer), profileSaved);
    var card := new PostCardView(p);
    likeDest := card.HandleLike(page.storedUser);
    liked := card.isLiked;
  }
}
