/**
 * The code-entry page reached from login: it reads the number login stored, counts
 * down before a resend is offered, expects three or six digits depending on the
 * number, and routes a verified visitor on.
 */
module VerifyPage {
  import opened Wrappers
  import opened Text
  import opened Navigation
  import opened VerifyOtpRoute
  import opened OtpInput

  const ResendDelay := 30

  /** One second of the interval: down by one, but never below zero. */
  function TickOf(t: int): (r: int)
    ensures r >= 0 && (t > 0 ==> r == t - 1) && (t <= 0 ==> r == 0)
  {
    if t > 0 then t - 1 else 0
  }

  /**
   * The expected code length for a phone, the `length` prop the page passes to the
   * code input and the digit count its message announces: three for the demo
   * account, six for everyone else.
   */
  function CodeLength(phone: string): (n: nat)
    ensures n == 3 <==> phone == DemoPhone
    ensures n == 3 || n == 6
  {
    if phone == DemoPhone then 3 else 6
  }

  /**
   * Where a verify-otp answer sends the visitor: a new user to signup, any other
   * verified one to the dashboard; an error keeps the page.
   */
  function AfterVerify(r: Response): (d: Destination)
    ensures r.Failure? ==> d == Stay
    ensures r.Success? ==> (d == SignupRoute <==> r.isNewUser) && (d == DashboardRoute <==> !r.isNewUser)
  {
    if r.Failure? then Stay else if r.isNewUser then SignupRoute else DashboardRoute
  }

  /** The page's state and the local storage it writes. */
  class VerifyPageView {
    var phone: string
    var timer: int
    var storedUser: Option<string>
    var storedToken: Option<string>

    predicate Valid()
      reads this
    {
      0 <= timer <= ResendDelay
    }

    constructor()
      ensures Valid()
      ensures phone == "" && timer == ResendDelay && storedUser == None && storedToken == None
    {
      phone, timer := "", ResendDelay;
      storedUser, storedToken := None, None;
    }

    /** The mount effect: no stored number (or an empty one) sends the visitor to login; otherwise it is shown. */
    method Mount(authPhone: Option<string>) returns (dest: Destination)
      modifies this
      ensures authPhone.None? || authPhone.value == "" ==> dest == LoginRoute && phone == old(phone)
      ensures authPhone.Some? && authPhone.value != "" ==> dest == Stay && phone == authPhone.value
      ensures timer == old(timer) && storedUser == old(storedUser) && storedToken == old(storedToken)
    {
      if authPhone.None? || authPhone.value == "" {
        dest := LoginRoute;
      } else {
        phone := authPhone.value;
        dest := Stay;
      }
    }

    method Tick()
      requires Valid()
      modifies this
      ensures Valid()
      ensures timer == TickOf(old(timer)) && timer <= old(timer)
      ensures phone == old(phone) && storedUser == old(storedUser) && storedToken == old(storedToken)
    {
      timer := TickOf(timer);
    }

    method HandleResend()
      modifies this
      ensures Valid() && timer == ResendDelay
      ensures phone == old(phone) && storedUser == old(storedUser) && storedToken == old(storedToken)
    {
      timer := ResendDelay;
    }

    /**
     * The code is complete. `answer` is the verify-otp answer, `None` when the request
     * or the reading of its JSON threw, which is caught with an alert. A verified
     * answer stores the user and the token, and the visitor moves on.
     */
    method HandleVerify(answer: Option<Response>) returns (dest: Destination)
      modifies this
      ensures dest == (if answer.None? then Stay else AfterVerify(answer.value))
      ensures answer.Some? && answer.value.Success? ==>
                storedUser == Some(UserJson(answer.value.user)) && storedToken == Some(answer.value.token)
      ensures !(answer.Some? && answer.value.Success?) ==> storedUser == old(storedUser) && storedToken == old(storedToken)
      ensures phone == old(phone) && timer == old(timer)
    {
      if answer.None? {
        return Stay;
      }
      if answer.value.Success? {
        storedUser := Some(UserJson(answer.value.user));
        storedToken := Some(answer.value.token);
      }
      dest := AfterVerify(answer.value);
    }
  }

  /**
   * Against the mock endpoint: the demo number, asked for three digits, gets in with
   * `123` and lands on the dashboard; the "new" number with the universal code goes
   * to signup; any other six-digit code is refused and the page stays.
   */
  lemma EndToEnd(phone: string, otp: string)
    requires phone != "" && otp != ""
    ensures CodeLength(DemoPhone) == 3 && AfterVerify(Post(Request(DemoPhone, DemoCode))) == DashboardRoute
    ensures AfterVerify(Post(Request(NewUserPhone, UniversalCode))) == SignupRoute
    ensures otp != UniversalCode && !IsDemoAccount(phone, otp) ==> AfterVerify(Post(Request(phone, otp))) == Stay
  {
    AcceptRule(phone, otp);
    AcceptedResponse(DemoPhone, DemoCode);
    AcceptedResponse(NewUserPhone, UniversalCode);
  }

  /**
   * The demo visitor's code entry. The page first renders with an empty phone, so
   * the input mounts with six cells; the stored number then changes only the
   * `length` prop to three. Six cells stay on screen, and typing 1, 2, 3 into the
   * first three completes the code `123` with the other three still empty.
   */
  method DemoCodeEntry() returns (cellCount: nat, code: Option<string>)
    ensures cellCount == 6 && code == Some(DemoCode)
  {
    var boxes := new OtpBoxes(CodeLength(""));
    boxes.SetLength(CodeLength(DemoPhone));
    var first := Press(boxes, 0, '1');
    var second := Press(boxes, 1, '2');
    code := Press(boxes, 2, '3');
    DemoJoin();
    cellCount := boxes.cells.Length;
  }

  /** Typing the digit `d` into cell `index` of a code input. */
  method Press(boxes: OtpBoxes, index: nat, d: char) returns (completed: Option<string>)
    requires boxes.Valid() && index < boxes.cells.Length && '0' <= d <= '9'
    modifies boxes, boxes.cells
    ensures boxes.Valid() && boxes.length == old(boxes.length)
    ensures boxes.cells[..] == old(boxes.cells[..])[index := [d]]
    ensures completed.Some? <==> FilledCount(boxes.cells[..]) == boxes.length
    ensures completed.Some? ==> completed.value == Join(boxes.cells[..])
  {
    SingleCharNumeric(d);
    LastCharacter([d]);
    completed := boxes.HandleChange(index, [d]);
  }

  lemma DemoJoin()
    ensures var c := seq(6, i => [])[0 := "1"][1 := "2"][2 := "3"];
      FilledCount(c) == 3 && Join(c) == DemoCode
  {
    var c1: seq<string> := ["1"];
    var c2 := c1 + ["2"];
    var c3 := c2 + ["3"];
    var c4 := c3 + [""];
    var c5 := c4 + [""];
    var c6 := c5 + [""];
    assert c1[..0] == [] && c2[..1] == c1 && c3[..2] == c2;
    assert c4[..3] == c3 && c5[..4] == c4 && c6[..5] == c5;
    assert Join(c1) == "1" && FilledCount(c1) == 1;
    assert Join(c2) == "12" && FilledCount(c2) == 2;
    assert Join(c3) == "123" && FilledCount(c3) == 3;
    assert Join(c4) == "123" && FilledCount(c4) == 3;
    assert Join(c5) == "123" && FilledCount(c5) == 3;
    assert Join(c6) == "123" && FilledCount(c6) == 3;
    var z: seq<string> := seq(6, i => []);
    var d := z[0 := "1"][1 := "2"][2 := "3"];
    assert |d| == |c6|;
    forall k | 0 <= k < 6 ensures d[k] == c6[k] {
      assert z[k] == [];
    }
    assert d == c6;
  }
}
