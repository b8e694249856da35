/** The three-step password-reset wizard: enter the e-mail and ask for a
    code, enter the (mock) code, then choose and confirm a new password. */
module PasswordReset {
  import opened Browser

  /** The only code the wizard accepts; no code is actually sent. */
  const MOCK_AUTH_CODE: string := "123456"

  const EMAIL_INPUT: int := 1
  const CODE_VERIFICATION: int := 2
  const PASSWORD_RESET: int := 3

  predicate IsStep(step: int)
  {
    EMAIL_INPUT <= step <= PASSWORD_RESET
  }

  const EMPTY_EMAIL_MESSAGE: string := "이메일을 입력해 주세요."
  const CODE_MISMATCH_MESSAGE: string := "인증번호가 일치하지 않습니다."
  const PASSWORD_MISMATCH_MESSAGE: string := "새 비밀번호가 일치하지 않습니다."
  const RESET_DONE_MESSAGE: string := "비밀번호 재설정이 완료되었습니다!"
  const RESET_FAILED_MESSAGE: string := "비밀번호 변경 실패"
  const SERVER_ERROR_MESSAGE: string := "서버 오류가 발생했습니다."

  /** The alert announcing the (mock) code. */
  function CodeSentMessage(email: string): string
  {
    "인증번호 [" + MOCK_AUTH_CODE + "]가 " + email + "로 발송되었습니다."
  }

  /** Body of `PUT /api/auth/password/reset`. */
  datatype ResetRequest = ResetRequest(email: string, newPassword: string)

  /** The decoded reply of the reset endpoint. */
  datatype ResetResponse = ResetResponse(status: int, message: Option<string>)

  /** The step after a click on "send code": the button is disabled outside
      the first step, and an empty e-mail is refused. */
  function StepAfterSendCode(step: int, email: string): (r: int)
    ensures IsStep(step) ==> IsStep(r)
    ensures r >= step
    ensures r != step <==> step == EMAIL_INPUT && email != ""
    ensures r != step ==> r == CODE_VERIFICATION
  {
    if step == EMAIL_INPUT && email != "" then CODE_VERIFICATION else step
  }

  /** The step after the form is submitted: only a matching code at the
      verification step moves the wizard on. */
  function StepAfterSubmit(step: int, authCode: string): (r: int)
    ensures IsStep(step) ==> IsStep(r)
    ensures r >= step
    ensures r != step <==> step == CODE_VERIFICATION && authCode == MOCK_AUTH_CODE
    ensures r != step ==> r == PASSWORD_RESET
  {
    if step == CODE_VERIFICATION && authCode == MOCK_AUTH_CODE then PASSWORD_RESET else step
  }

  /** A submission sends the reset request exactly at the last step with the
      two passwords equal. */
  predicate SendsReset(step: int, newPassword: string, confirmPassword: string)
  {
    step == PASSWORD_RESET && newPassword == confirmPassword
  }

  /** What the user sees once the reset request has been answered. */
  function ResetOutcome(reply: FetchOutcome<ResetResponse>): (effects: seq<Effect>)
    ensures Navigate("/") in effects <==> reply.Fetched? && reply.data.status == 200
    ensures |effects| >= 1 && effects[0].Alert?
    ensures reply.Fetched? && reply.data.status == 200 ==> effects == [Alert(RESET_DONE_MESSAGE), Navigate("/")]
    ensures reply.Fetched? && reply.data.status != 200 ==> effects == [Alert(OrElse(reply.data.message, RESET_FAILED_MESSAGE))]
    ensures reply.FetchFailed? ==> effects == [Alert(SERVER_ERROR_MESSAGE)]
  {
    match reply
    case FetchFailed => [Alert(SERVER_ERROR_MESSAGE)]
    case Fetched(data) =>
      if data.status == 200 then [Alert(RESET_DONE_MESSAGE), Navigate("/")]
      else [Alert(OrElse(data.message, RESET_FAILED_MESSAGE))]
  }

  class FindPasswordPage {
    var currentStep: int
    var email: string
    var authCode: string
    var newPassword: string
    var confirmPassword: string

    /** The wizard is at one of its three steps; it is past the first only
        with a non-empty e-mail, and at the last only with the right code. */
    ghost predicate Valid()
      reads this
    {
      IsStep(currentStep) &&
      (currentStep != EMAIL_INPUT ==> email != "") &&
      (currentStep == PASSWORD_RESET ==> authCode == MOCK_AUTH_CODE)
    }

    constructor ()
      ensures Valid() && currentStep == EMAIL_INPUT
      ensures email == "" && authCode == "" && newPassword == "" && confirmPassword == ""
    {
      currentStep := EMAIL_INPUT;
      email, authCode, newPassword, confirmPassword := "", "", "", "";
    }

    /** Typing in the e-mail field, which is disabled after the first step. */
    method TypeEmail(text: string)
      requires Valid()
      modifies this`email
      ensures Valid()
      ensures email == if currentStep == EMAIL_INPUT then text else old(email)
    {
      if currentStep == EMAIL_INPUT {
        email := text;
      }
    }

    /** Typing in the code field, which is shown from the second step on and
        disabled at the last. */
    method TypeAuthCode(text: string)
      requires Valid()
      modifies this`authCode
      ensures Valid()
      ensures authCode == if currentStep == CODE_VERIFICATION then text else old(authCode)
    {
      if currentStep == CODE_VERIFICATION {
        authCode := text;
      }
    }

    /** Typing in the two password fields, which are shown only at the last
        step. */
    method TypePasswords(password: string, confirmation: string)
      requires Valid()
      modifies this`newPassword, this`confirmPassword
      ensures Valid()
      ensures newPassword == if currentStep == PASSWORD_RESET then password else old(newPassword)
      ensures confirmPassword == if currentStep == PASSWORD_RESET then confirmation else old(confirmPassword)
    {
      if currentStep == PASSWORD_RESET {
        newPassword, confirmPassword := password, confirmation;
      }
    }

    /** A click on "send code" (`handleSendAuthCode`). */
    method SendAuthCode() returns (effects: seq<Effect>)
      requires Valid()
      modifies this`currentStep
      ensures Valid()
      ensures currentStep == StepAfterSendCode(old(currentStep), email)
      ensures old(currentStep) != EMAIL_INPUT ==> effects == []
      ensures old(currentStep) == EMAIL_INPUT && email == "" ==> effects == [Alert(EMPTY_EMAIL_MESSAGE)]
      ensures old(currentStep) == EMAIL_INPUT && email != "" ==> effects == [Alert(CodeSentMessage(email))]
    {
      if currentStep != EMAIL_INPUT {
        // the button is disabled
        return [];
      }
      if email == "" {
        return [Alert(EMPTY_EMAIL_MESSAGE)];
      }
      effects := [Alert(CodeSentMessage(email))];
      currentStep := CODE_VERIFICATION;
    }

    /** Submitting the form (`handleSubmit`); `reply` is what the reset
        endpoint answers if the request is made. */
    method Submit(reply: FetchOutcome<ResetResponse>) returns (request: Option<ResetRequest>, effects: seq<Effect>)
      requires Valid()
      modifies this`currentStep
      ensures Valid()
      ensures currentStep == StepAfterSubmit(old(currentStep), authCode)
      ensures request.Some? <==> SendsReset(old(currentStep), newPassword, confirmPassword)
      ensures request.Some? ==> request.value == ResetRequest(email, newPassword) && effects == ResetOutcome(reply)
      ensures old(currentStep) == EMAIL_INPUT ==> effects == []
      ensures old(currentStep) == CODE_VERIFICATION ==>
        effects == if authCode == MOCK_AUTH_CODE then [] else [Alert(CODE_MISMATCH_MESSAGE)]
      ensures old(currentStep) == PASSWORD_RESET && newPassword != confirmPassword ==>
        effects == [Alert(PASSWORD_MISMATCH_MESSAGE)]
    {
      request, effects := None, [];
      if currentStep == CODE_VERIFICATION {
        if authCode == MOCK_AUTH_CODE {
          currentStep := PASSWORD_RESET;
        } else {
          effects := [Alert(CODE_MISMATCH_MESSAGE)];
        }
        return;
      }
      if currentStep == PASSWORD_RESET {
        if newPassword != confirmPassword {
          effects := [Alert(PASSWORD_MISMATCH_MESSAGE)];
          return;
        }
        request := Some(ResetRequest(email, newPassword));
        effects := ResetOutcome(reply);
      }
    }
  }

  /** A whole successful run: the e-mail, the right code and two equal
      passwords lead to exactly one reset request for that e-mail. */
  method CompleteReset(address: string, password: string) returns (request: Option<ResetRequest>)
    requires address != ""
    ensures request == Some(ResetRequest(address, password))
  {
    var page := new FindPasswordPage();
    page.TypeEmail(address);
    var sent := page.SendAuthCode();
    assert page.currentStep == CODE_VERIFICATION;
    page.TypeAuthCode(MOCK_AUTH_CODE);
    var effects;
    request, effects := page.Submit(FetchFailed);
    assert request == None && page.currentStep == PASSWORD_RESET;
    page.TypePasswords(password, password);
    request, effects := page.Submit(Fetched(ResetResponse(200, None)));
  }
}
