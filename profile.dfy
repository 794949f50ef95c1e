/** The profile page (src/pages/Profile/index.jsx): the avatar initials, the
    user read from storage with a built-in fallback, and the change-password
    form with its validation, request body and result message. */
module Profile {
  import opened Base
  import opened Text

  /** `n[0]` for a segment, where an empty segment gives `undefined`, which
      `join` renders as nothing. */
  function FirstChar(segment: string): (c: string)
    ensures segment == "" ==> c == ""
    ensures segment != "" ==> c == [segment[0]]
  {
    if segment == "" then "" else [segment[0]]
  }

  /** The `Avatar` initials: "U" without a (truthy) name; otherwise the first
      character of each of the first two space-separated segments, upper-cased. */
  function Initials(name: Option<string>): (r: string)
    ensures !Present(name) ==> r == "U"
    ensures Present(name) ==>
      var parts := Split(name.value, ' ');
      r == Upper(FirstChar(parts[0]) + (if |parts| >= 2 then FirstChar(parts[1]) else ""))
    ensures Present(name) ==> |r| <= 2
  {
    if !Present(name) then "U"
    else
      var parts := Split(name.value, ' ');
      var firsts := seq(|parts|, i requires 0 <= i < |parts| => FirstChar(parts[i]));
      var kept := firsts[..Min(2, |firsts|)];
      if |kept| == 1 then
        Upper(Join(kept, ""))
      else
        assert kept[1..] == [kept[1]];
        assert Join(kept, "") == kept[0] + kept[1];
        Upper(Join(kept, ""))
  }

  /** A name made of two segments and possibly more after a space uses the
      first characters of the first two; an empty first segment still takes
      its slot. */
  lemma {:induction false} InitialsTakeFirstTwoSegments(a: string, b: string, tail: string)
    requires ' ' !in a && ' ' !in b
    requires tail == "" || tail[0] == ' '
    ensures Initials(Some(a + " " + b + tail)) == Upper(FirstChar(a) + FirstChar(b))
  {
    var name := a + " " + b + tail;
    assert name == a + [' '] + (b + tail);
    SplitAtSeparator(a, ' ', b + tail);
    if tail == "" {
      assert b + tail == b;
      SplitWithoutSeparator(b, ' ');
    } else {
      assert b + tail == b + [' '] + tail[1..];
      SplitAtSeparator(b, ' ', tail[1..]);
    }
    var parts := Split(name, ' ');
    assert parts[0] == a && parts[1] == b;
    assert name[|a|] == ' ';
  }

  /** A one-word name gives its upper-cased first character. */
  lemma InitialsOfOneWord(a: string)
    requires a != "" && ' ' !in a
    ensures Initials(Some(a)) == Upper([a[0]])
  {
    SplitWithoutSeparator(a, ' ');
  }

  /** What `localStorage.getItem("user")` held. */
  datatype StoredUser = Missing | Unparsable | Parsed(value: Json)

  const MockUser := JObj(map[
    "username" := JStr("player_one92"),
    "email" := JStr("player.one92@example.com"),
    "sdt" := JStr("+84 912 345 678"),
    "displayName" := JStr("Nguyễn Tuấn"),
    "country" := JStr("Vietnam"),
    "avatarColor" := JStr("#6C5CE7"),
    "level" := JNum(27),
    "rank" := JStr("Diamond III"),
    "score" := JNum(14280),
    "achievements" := JArr([
      JObj(map["id" := JStr("a1"), "title" := JStr("Top 100 Ranked"), "desc" := JStr("Reached top 100 in seasonal ladder")]),
      JObj(map["id" := JStr("a2"), "title" := JStr("Collector I"), "desc" := JStr("Own 50 unique cards")]),
      JObj(map["id" := JStr("a3"), "title" := JStr("Win Streak"), "desc" := JStr("Win 10 matches in a row")])])])

  /** `JSON.parse(localStorage.getItem("user")) || mockUser`, with a parse
      failure also giving the mock user (a missing item parses as null). */
  function CurrentUser(stored: StoredUser): (user: Json)
    ensures Truthy(user)
    ensures user == MockUser || (stored.Parsed? && user == stored.value)
    ensures stored.Parsed? && Truthy(stored.value) ==> user == stored.value
    ensures !(stored.Parsed? && Truthy(stored.value)) ==> user == MockUser
  {
    if stored.Parsed? && Truthy(stored.value) then stored.value else MockUser
  }

  /** The name the avatar shows: `user.displayName || user.username`. */
  function AvatarName(user: Json): (name: Option<string>)
    ensures Present(StringField(user, "displayName")) ==> name == StringField(user, "displayName")
    ensures !Present(StringField(user, "displayName")) ==> name == StringField(user, "username")
  {
    var display := StringField(user, "displayName");
    if Present(display) then display else StringField(user, "username")
  }

  const TooShortMessage := "Mật khẩu mới phải ít nhất 6 ký tự"
  const MismatchMessage := "Xác nhận mật khẩu không khớp"

  /** The two checks of `handleChangePassword`, the length check first. */
  function PasswordProblem(newPassword: string, confirmPassword: string): (m: Option<string>)
    ensures |newPassword| < 6 ==> m == Some(TooShortMessage)
    ensures |newPassword| >= 6 && newPassword != confirmPassword ==> m == Some(MismatchMessage)
    ensures m.None? <==> |newPassword| >= 6 && newPassword == confirmPassword
  {
    if |newPassword| < 6 then Some(TooShortMessage)
    else if newPassword != confirmPassword then Some(MismatchMessage)
    else None
  }

  /** The POST /auth/change-password request: target, headers and JSON body. */
  datatype ChangePasswordRequest = ChangePasswordRequest(
    target: string,
    authorization: string,
    email: Option<Json>,
    currentPassword: string,
    oldPassword: string,
    password: string,
    newPassword: string,
    confirmPassword: string)

  /** The browser's `localStorage`: key to stored string. */
  type Storage = map<string, string>

  /** What the API client leaves in storage after a login: its two tokens. */
  function ClientStorage(accessToken: string, refreshToken: string): (s: Storage)
    ensures s.Keys == {"accessToken", "refreshToken"}
  {
    map["accessToken" := accessToken, "refreshToken" := refreshToken]
  }

  function Lookup(storage: Storage, key: string): (v: Option<string>)
    ensures v.Some? <==> key in storage
    ensures v.Some? ==> v.value == storage[key]
  {
    if key in storage then Some(storage[key]) else None
  }

  /** The token lookup as written: `localStorage.getItem("token")`, a key
      the API client never writes. */
  function StoredTokenAsWritten(storage: Storage): (t: Option<string>)
    ensures t == Lookup(storage, "token")
  {
    Lookup(storage, "token")
  }

  /** With the client's storage the lookup as written finds nothing, so the
      request goes out without a Bearer credential. */
  lemma TokenKeyMissesClientStorage(accessToken: string, refreshToken: string)
    ensures StoredTokenAsWritten(ClientStorage(accessToken, refreshToken)).None?
  {
    assert "token" !in ClientStorage(accessToken, refreshToken).Keys;
  }

  /** The token lookup as intended: the key under which the API client keeps
      the access token. */
  function StoredToken(storage: Storage): (t: Option<string>)
    ensures t == Lookup(storage, "accessToken")
  {
    Lookup(storage, "accessToken")
  }

  /** With the client's storage the intended lookup finds the access token. */
  lemma TokenKeyFindsClientToken(accessToken: string, refreshToken: string)
    ensures StoredToken(ClientStorage(accessToken, refreshToken)) == Some(accessToken)
  {
  }

  /** `String(URL)` for the global `URL` constructor, which is what the page
      interpolates because it does not import the API base URL. */
  const GlobalUrlText := "function URL() { [native code] }"

  const ChangePasswordPath := "/auth/change-password"

  /** The request target as written. */
  function ChangePasswordTargetAsWritten(): (t: string)
    ensures t == GlobalUrlText + ChangePasswordPath
  {
    GlobalUrlText + ChangePasswordPath
  }

  /** As written the target is no absolute URL: the browser resolves it
      against the page, not against the API server. */
  lemma TargetAsWrittenIsRelative()
    ensures !StartsWith(ChangePasswordTargetAsWritten(), "http://")
    ensures !StartsWith(ChangePasswordTargetAsWritten(), "https://")
  {
    assert ChangePasswordTargetAsWritten()[0] == 'f';
  }

  /** The request target as intended: the path on the API server, as the
      reset-password page builds it. */
  function ChangePasswordTarget(baseUrl: string): (t: string)
    ensures StartsWith(t, baseUrl)
    ensures t[|baseUrl|..] == ChangePasswordPath
  {
    Endpoint(baseUrl, ChangePasswordPath)
  }

  /** The Authorization header value: `Bearer ${token}` for a truthy token.
      Otherwise the headers record holds `undefined`, which `fetch` turns into
      the text "undefined", so a header is sent either way. */
  function AuthorizationValue(token: Option<string>): (v: string)
    ensures StartsWith(v, "Bearer ") <==> Present(token)
    ensures Present(token) ==> v[|"Bearer "|..] == token.value
  {
    if Present(token) then
      var v := "Bearer " + token.value;
      assert v[..|"Bearer "|] == "Bearer ";
      v
    else
      assert "undefined"[0] != "Bearer "[0];
      "undefined"
  }

  /** The request body and headers for a target and a token: the current
      password under three names, `confirmPassword || newPassword`, the
      user's email, and the Authorization value for the token. */
  function RequestFor(target: string, token: Option<string>, email: Option<Json>, current: string, newPassword: string, confirm: string): (r: ChangePasswordRequest)
    ensures r.target == target
    ensures r.currentPassword == current && r.oldPassword == current && r.password == current
    ensures r.newPassword == newPassword && r.email == email
    ensures r.confirmPassword == (if confirm != "" then confirm else newPassword)
    ensures StartsWith(r.authorization, "Bearer ") <==> Present(token)
    ensures Present(token) ==> r.authorization == "Bearer " + token.value
    ensures !Present(token) ==> r.authorization == "undefined"
  {
    ChangePasswordRequest(
      target,
      AuthorizationValue(token),
      email, current, current, current, newPassword,
      if confirm != "" then confirm else newPassword)
  }

  /** The request `handleChangePassword` sends as written: to the global
      `URL` text, with the token stored under `token`. */
  function ChangeRequestAsWritten(storage: Storage, email: Option<Json>, current: string, newPassword: string, confirm: string): (r: ChangePasswordRequest)
    ensures r.target == ChangePasswordTargetAsWritten()
    ensures StartsWith(r.authorization, "Bearer ") <==> Present(Lookup(storage, "token"))
    ensures !Present(Lookup(storage, "token")) ==> r.authorization == "undefined"
    ensures r == RequestFor(ChangePasswordTargetAsWritten(), StoredTokenAsWritten(storage), email, current, newPassword, confirm)
  {
    RequestFor(ChangePasswordTargetAsWritten(), StoredTokenAsWritten(storage), email, current, newPassword, confirm)
  }

  /** The request as intended: to the API server, with the access token. */
  function ChangeRequest(baseUrl: string, storage: Storage, email: Option<Json>, current: string, newPassword: string, confirm: string): (r: ChangePasswordRequest)
    ensures StartsWith(r.target, baseUrl)
    ensures StartsWith(r.authorization, "Bearer ") <==> Present(Lookup(storage, "accessToken"))
    ensures r == RequestFor(ChangePasswordTarget(baseUrl), StoredToken(storage), email, current, newPassword, confirm)
  {
    RequestFor(ChangePasswordTarget(baseUrl), StoredToken(storage), email, current, newPassword, confirm)
  }

  /** After a login the two requests differ: as written the request carries
      the header text "undefined" instead of a credential and goes to a path relative to the page; as intended it
      carries the access token to the API server. */
  lemma AsWrittenRequestLosesCredentials(baseUrl: string, accessToken: string, refreshToken: string, email: Option<Json>, current: string, newPassword: string, confirm: string)
    requires accessToken != ""
    ensures var storage := ClientStorage(accessToken, refreshToken);
            var written := ChangeRequestAsWritten(storage, email, current, newPassword, confirm);
            var intended := ChangeRequest(baseUrl, storage, email, current, newPassword, confirm);
            && written.authorization == "undefined"
            && !StartsWith(written.authorization, "Bearer ")
            && !StartsWith(written.target, "http://") && !StartsWith(written.target, "https://")
            && intended.authorization == "Bearer " + accessToken
            && StartsWith(intended.target, baseUrl)
  {
    TokenKeyMissesClientStorage(accessToken, refreshToken);
    TokenKeyFindsClientToken(accessToken, refreshToken);
    TargetAsWrittenIsRelative();
  }

  /** Once validation passes, the confirmation sent is the new password:
      the `|| newPassword` fallback never applies. */
  lemma ValidatedRequestConfirmsNewPassword(baseUrl: string, storage: Storage, email: Option<Json>, current: string, newPassword: string, confirm: string)
    requires PasswordProblem(newPassword, confirm).None?
    ensures ChangeRequest(baseUrl, storage, email, current, newPassword, confirm).confirmPassword == newPassword
  {
  }

  /** How the request ended: a response with its parsed body (a body that
      fails to parse is the empty object), or a rejected `fetch`. */
  datatype PasswordReply = Answered(ok: bool, status: nat, data: Json) | Unreachable(message: string)

  /** `data.errors?.join?.(", ")`: only an array has a `join`. */
  function ErrorsText(data: Json): (t: Option<string>)
    ensures t.Some? <==> data.JObj? && "errors" in data.fields && data.fields["errors"].JArr?
  {
    if data.JObj? && "errors" in data.fields && data.fields["errors"].JArr? then
      var items := data.fields["errors"].items;
      Some(Join(seq(|items|, i requires 0 <= i < |items| => JsonText(items[i])), ", "))
    else None
  }

  /** `data.message || data.error || data.errors?.join?.(", ")`. */
  function BackendMessage(data: Json): (m: Option<string>)
    ensures Present(StringField(data, "message")) ==> m == StringField(data, "message")
    ensures !Present(StringField(data, "message")) && Present(StringField(data, "error")) ==> m == StringField(data, "error")
    ensures !Present(StringField(data, "message")) && !Present(StringField(data, "error")) ==> m == ErrorsText(data)
  {
    if Present(StringField(data, "message")) then StringField(data, "message")
    else if Present(StringField(data, "error")) then StringField(data, "error")
    else ErrorsText(data)
  }

  /** The TypeError V8 raises for `data.message` when the body is `null`. */
  const NullDataError := "Cannot read properties of null (reading 'message')"
  const ChangedMessage := "Đổi mật khẩu thành công"

  /** The message `handleChangePassword` leaves once the request has ended. */
  function CompletionMessage(reply: PasswordReply): (m: string)
    ensures m != ""
    ensures reply.Unreachable? ==> m == "Lỗi: " + reply.message
    ensures reply.Answered? && reply.data == JNull ==> m == "Lỗi: " + NullDataError
    ensures reply.Answered? && reply.data != JNull && reply.ok ==> m == OrElse(StringField(reply.data, "message"), ChangedMessage)
    ensures reply.Answered? && reply.data != JNull && !reply.ok ==>
              m == OrElse(BackendMessage(reply.data), "Không thể đổi mật khẩu (mã " + NatToString(reply.status) + ").")
  {
    match reply
    case Unreachable(message) => "Lỗi: " + message
    case Answered(ok, status, data) =>
      if data == JNull then "Lỗi: " + NullDataError
      else if ok then OrElse(StringField(data, "message"), ChangedMessage)
      else OrElse(BackendMessage(data), "Không thể đổi mật khẩu (mã " + NatToString(status) + ").")
  }

  /** The password form state: `pwd`, `pwdMessage`, `pwdLoading`, and the
      requests sent. The inputs and the button are disabled while loading. */
  class PasswordForm {
    var currentPassword: string
    var newPassword: string
    var confirmPassword: string
    var message: string
    var loading: bool
    var sent: seq<ChangePasswordRequest>

    constructor()
      ensures currentPassword == "" && newPassword == "" && confirmPassword == ""
      ensures message == "" && !loading && sent == []
    {
      currentPassword, newPassword, confirmPassword := "", "", "";
      message, loading, sent := "", false, [];
    }

    /** Typing into the three inputs. */
    method Edit(current: string, newValue: string, confirm: string)
      requires !loading
      modifies this`currentPassword, this`newPassword, this`confirmPassword
      ensures currentPassword == current && newPassword == newValue && confirmPassword == confirm
    {
      currentPassword, newPassword, confirmPassword := current, newValue, confirm;
    }

    /** `handleChangePassword` up to its `await fetch`: a rejected form sets
        the message and sends nothing; otherwise loading starts, the message
        is cleared and one request goes out. The request is the intended one
        (`ChangeRequest`); what the page sends as written is
        `ChangeRequestAsWritten`, and `AsWrittenRequestLosesCredentials`
        shows how the two differ. */
    method Submit(baseUrl: string, storage: Storage, email: Option<Json>) returns (started: bool)
      requires !loading
      modifies this`message, this`loading, this`sent
      ensures started <==> PasswordProblem(newPassword, confirmPassword).None?
      ensures !started ==> message == PasswordProblem(newPassword, confirmPassword).value && !loading && sent == old(sent)
      ensures started ==> loading && message == ""
                          && sent == old(sent) + [ChangeRequest(baseUrl, storage, email, currentPassword, newPassword, confirmPassword)]
    {
      var problem := PasswordProblem(newPassword, confirmPassword);
      if problem.Some? {
        message := problem.value;
        return false;
      }
      loading := true;
      message := "";
      sent := sent + [ChangeRequest(baseUrl, storage, email, currentPassword, newPassword, confirmPassword)];
      started := true;
    }

    /** The rest of `handleChangePassword`: the result message, the fields
        reset after a success, and loading over on every path. */
    method Complete(reply: PasswordReply)
      requires loading
      modifies this`message, this`loading, this`currentPassword, this`newPassword, this`confirmPassword
      ensures !loading && message == CompletionMessage(reply)
      ensures reply.Answered? && reply.ok && reply.data != JNull ==>
                currentPassword == "" && newPassword == "" && confirmPassword == ""
      ensures !(reply.Answered? && reply.ok && reply.data != JNull) ==>
                currentPassword == old(currentPassword) && newPassword == old(newPassword) && confirmPassword == old(confirmPassword)
    {
      message := CompletionMessage(reply);
      if reply.Answered? && reply.ok && reply.data != JNull {
        currentPassword, newPassword, confirmPassword := "", "", "";
      }
      loading := false;
    }
  }

  /** The submit button's caption. */
  function SubmitLabel(loading: bool): (caption: string)
    ensures loading ==> caption == "Đang đổi..."
    ensures !loading ==> caption == "Cập nhật mật khẩu"
  {
    if loading then "Đang đổi..." else "Cập nhật mật khẩu"
  }
}
