/** The reset-password page (src/pages/ResetPassword/index.jsx): the token
    pasted from the e-mail is normalised, the new password validated, one
    POST /auth/reset-password sent, and the outcome shown as a message whose
    colour depends on whether it mentions "lỗi" (error). */
module ResetPassword {
  import opened Base
  import opened Text

  const TooShortMessage := "Mật khẩu phải ít nhất 6 ký tự"
  const MismatchMessage := "Mật khẩu xác nhận không khớp"
  const InvalidTokenMessage := "Token không " + "hợp lệ." + " Vui lòng dán " + "lại từ email."
  const ResetMessage := "Đặt lại mật khẩu thành công."
  /** The TypeError V8 raises for `data.message` when the body is `null`. */
  const NullDataError := "Cannot read properties of null (reading 'message')"

  /** The two checks of `handleSubmit`, length first; `None` when both pass. */
  function ResetProblem(password: string, confirm: string): (m: Option<string>)
    ensures m.None? <==> |password| >= 6 && password == confirm
    ensures |password| < 6 ==> m == Some(TooShortMessage)
    ensures |password| >= 6 && password != confirm ==> m == Some(MismatchMessage)
  {
    if |password| < 6 then Some(TooShortMessage)
    else if password != confirm then Some(MismatchMessage)
    else None
  }

  /** `(token || "").replace(/\s+/g, "").trim()`: a token broken over lines in
      the e-mail comes out whole. The trailing trim has nothing left to do. */
  function NormalizeToken(token: string): (r: string)
    ensures SpaceFree(r)
    ensures r == RemoveSpaces(token)
    ensures |r| <= |token|
  {
    Trim(RemoveSpaces(token))
  }

  /** Normalising twice is normalising once. */
  lemma NormalizeIdempotent(token: string)
    ensures NormalizeToken(NormalizeToken(token)) == NormalizeToken(token)
  {
  }

  /** White space pasted anywhere inside a token does not change it. */
  lemma NormalizeIgnoresInsertedSpace(before: string, gap: string, after: string)
    requires IsBlank(gap)
    ensures NormalizeToken(before + gap + after) == NormalizeToken(before + after)
  {
    RemoveSpacesEmpty(gap);
    RemoveSpacesAppend(before + gap, after);
    RemoveSpacesAppend(before, gap);
    RemoveSpacesAppend(before, after);
  }

  /** The token is refused exactly when the field holds nothing but white space. */
  lemma NormalizedEmptyIffBlank(token: string)
    ensures NormalizeToken(token) == "" <==> IsBlank(token)
  {
    RemoveSpacesEmpty(token);
  }

  /** The POST /auth/reset-password request: `{ token, newPassword }`. */
  datatype ResetRequest = ResetRequest(target: string, token: string, newPassword: string)

  const ResetPath := "/auth/reset-password"

  /** How the request ended: a parsed body, or an error thrown by `fetch` or
      by `res.json()` (an unparsable body is not caught separately). */
  datatype ResetReply = Answered(ok: bool, status: nat, data: Json) | Thrown(message: string)

  /** The message `handleSubmit` leaves once the request has ended. */
  function CompletionMessage(reply: ResetReply): (m: string)
    ensures m != ""
    ensures reply.Thrown? ==> m == "Lỗi: " + reply.message
    ensures reply.Answered? && reply.data == JNull ==> m == "Lỗi: " + NullDataError
    ensures reply.Answered? && reply.data != JNull && reply.ok ==> m == OrElse(StringField(reply.data, "message"), ResetMessage)
    ensures reply.Answered? && reply.data != JNull && !reply.ok ==>
              m == OrElse(StringField(reply.data, "message"), FailureMessage(reply.status))
  {
    match reply
    case Thrown(message) => "Lỗi: " + message
    case Answered(ok, status, data) =>
      if data == JNull then "Lỗi: " + NullDataError
      else if ok then OrElse(StringField(data, "message"), ResetMessage)
      else OrElse(StringField(data, "message"), FailureMessage(status))
  }

  function FailureMessage(status: nat): (m: string)
    ensures m == "Không thể đặt lại mật khẩu (mã " + NatToString(status) + ")."
  {
    "Không thể đặt lại mật khẩu (mã " + NatToString(status) + ")."
  }

  /** The redirect to /login is scheduled exactly after a successful reply. */
  predicate Redirects(reply: ResetReply) {
    reply.Answered? && reply.ok && reply.data != JNull
  }

  /** `message.toLowerCase().includes("lỗi")`: the red style; otherwise green. */
  predicate IsErrorStyle(m: string) {
    Contains(Lower(m), "lỗi")
  }

  /** Every message from the `catch` is shown in red. */
  lemma ThrownMessagesAreRed(message: string)
    ensures IsErrorStyle("Lỗi: " + message)
  {
    var m := "Lỗi: " + message;
    assert Lower(m)[..3] == "lỗi";
    assert OccursAt(Lower(m), "lỗi", 0);
  }

  /** A message lacking the letter "ỗ" is shown in green. */
  lemma GreenWithoutLetter(m: string)
    requires 'ỗ' !in m
    ensures !IsErrorStyle(m)
  {
    LowerKeepsAbsent(m, 'ỗ');
    ContainsOnlyOwnChars(Lower(m), "lỗi", 1);
  }

  /** The validation messages are shown in green, like a success. */
  lemma ValidationMessagesAreGreen()
    ensures !IsErrorStyle(TooShortMessage) && !IsErrorStyle(MismatchMessage)
  {
    GreenWithoutLetter(TooShortMessage);
    GreenWithoutLetter(MismatchMessage);
  }

  /** The refused-token message is shown in green. */
  lemma InvalidTokenMessageIsGreen()
    ensures !IsErrorStyle(InvalidTokenMessage)
  {
    assert 'ỗ' !in "Token không ";
    assert 'ỗ' !in "hợp lệ.";
    assert 'ỗ' !in " Vui lòng dán ";
    assert 'ỗ' !in "lại từ email.";
    GreenWithoutLetter(InvalidTokenMessage);
  }

  /** The fallback for an HTTP failure is shown in green, like a success. */
  lemma FailureFallbackIsGreen(status: nat)
    ensures !IsErrorStyle(FailureMessage(status))
    ensures !IsErrorStyle(ResetMessage)
  {
    var m := FailureMessage(status);
    assert 'ỗ' !in "Không thể đặt lại mật khẩu (mã ";
    assert 'ỗ' !in NatToString(status);
    assert 'ỗ' !in ").";
    assert m == "Không thể đặt lại mật khẩu (mã " + NatToString(status) + ").";
    GreenWithoutLetter(m);
    GreenWithoutLetter(ResetMessage);
  }

  /** How `handleSubmit` ends before any request is sent. */
  datatype SubmitStep = Invalid(message: string) | BadToken | Sent

  /** The page state: `token`, `password`, `confirmPassword`, `message`,
      `isLoading`, the requests sent and whether the redirect is scheduled.
      The inputs and the button are disabled while loading. */
  class ResetForm {
    var token: string
    var password: string
    var confirmPassword: string
    var message: string
    var isLoading: bool
    var sent: seq<ResetRequest>
    var redirectScheduled: bool

    /** The token starts as the `token` query parameter, or empty. */
    constructor(query: Option<string>)
      ensures token == OrElse(query, "") && password == "" && confirmPassword == ""
      ensures message == "" && !isLoading && sent == [] && !redirectScheduled
    {
      token := OrElse(query, "");
      password, confirmPassword := "", "";
      message, isLoading, sent, redirectScheduled := "", false, [], false;
    }

    /** The token textarea trims what is typed or pasted. */
    method EditToken(value: string)
      requires !isLoading
      modifies this`token
      ensures token == Trim(value)
    {
      token := Trim(value);
    }

    /** Typing into the two password inputs. */
    method EditPasswords(newPassword: string, confirm: string)
      requires !isLoading
      modifies this`password, this`confirmPassword
      ensures password == newPassword && confirmPassword == confirm
    {
      password, confirmPassword := newPassword, confirm;
    }

    /** `handleSubmit` up to its `await fetch`: a refused form only sets the
        message; a blank token sets its message and ends loading; otherwise
        loading starts, the message is cleared and one request goes out with
        the normalised token. */
    method Submit(baseUrl: string) returns (step: SubmitStep)
      requires !isLoading
      modifies this`message, this`isLoading, this`sent
      ensures var problem := ResetProblem(password, confirmPassword);
              problem.Some? ==> step == Invalid(problem.value) && message == problem.value
                                && !isLoading && sent == old(sent)
      ensures ResetProblem(password, confirmPassword).None? && IsBlank(token) ==>
                step == BadToken && message == InvalidTokenMessage && !isLoading && sent == old(sent)
      ensures ResetProblem(password, confirmPassword).None? && !IsBlank(token) ==>
                step == Sent && message == "" && isLoading
                && sent == old(sent) + [ResetRequest(Endpoint(baseUrl, ResetPath), NormalizeToken(token), password)]
      ensures step == Sent ==> SpaceFree(sent[|sent| - 1].token) && sent[|sent| - 1].token != ""
    {
      var problem := ResetProblem(password, confirmPassword);
      if problem.Some? {
        message := problem.value;
        return Invalid(problem.value);
      }
      isLoading := true;
      message := "";
      var normalized := NormalizeToken(token);
      NormalizedEmptyIffBlank(token);
      if normalized == "" {
        message := InvalidTokenMessage;
        isLoading := false;
        return BadToken;
      }
      sent := sent + [ResetRequest(Endpoint(baseUrl, ResetPath), normalized, password)];
      step := Sent;
    }

    /** The rest of `handleSubmit`: the result message, the redirect after a
        success, and loading over on every path. */
    method Complete(reply: ResetReply)
      requires isLoading
      modifies this`message, this`isLoading, this`redirectScheduled
      ensures !isLoading && message == CompletionMessage(reply)
      ensures redirectScheduled == (old(redirectScheduled) || Redirects(reply))
    {
      message := CompletionMessage(reply);
      if Redirects(reply) {
        redirectScheduled := true;
      }
      isLoading := false;
    }
  }

  /** The submit button's caption. */
  function SubmitLabel(isLoading: bool): (caption: string)
    ensures isLoading ==> caption == "Đang xử lý..."
    ensures !isLoading ==> caption == "Cập nhật mật khẩu"
  {
    if isLoading then "Đang xử lý..." else "Cập nhật mật khẩu"
  }
}
