/** The profile settings form (src/pages/EditProfile.jsx): the live
    password rules shown beside the field, and the save guard that refuses
    to send a new password that breaks them. The request is not modelled;
    its outcome is the `SaveReply` given to the response step. */
module EditProfile {
  import opened TextUtil
  import Server

  predicate HasLength(p: string) { |p| >= 8 }

  /** `/[A-Z]/.test(password)` */
  predicate HasUpper(p: string) { exists i :: 0 <= i < |p| && IsAsciiUpper(p[i]) }

  /** `/\d/.test(password)` */
  predicate HasNum(p: string) { exists i :: 0 <= i < |p| && IsDigit(p[i]) }

  /** One of `!@#$%&`. */
  predicate IsClientSpecial(ch: char)
  {
    ch == '!' || ch == '@' || ch == '#' || ch == '$' || ch == '%' || ch == '&'
  }

  predicate HasSpecial(p: string) { exists i :: 0 <= i < |p| && IsClientSpecial(p[i]) }

  /** `!password || (hasLength && hasUpper && hasNum && hasSpecial)`: an
      empty password means "keep the current one". */
  predicate IsPasswordValid(p: string)
  {
    p == "" || (HasLength(p) && HasUpper(p) && HasNum(p) && HasSpecial(p))
  }

  /** There is no whitelist: any character may be added to a valid
      non-empty password. */
  lemma NoWhitelist(p: string, ch: char)
    requires p != "" && IsPasswordValid(p)
    ensures IsPasswordValid(p + [ch])
  {
    var q := p + [ch];
    var i :| 0 <= i < |p| && IsAsciiUpper(p[i]);
    var j :| 0 <= j < |p| && IsDigit(p[j]);
    var k :| 0 <= k < |p| && IsClientSpecial(p[k]);
    assert q[i] == p[i] && q[j] == p[j] && q[k] == p[k];
  }

  /** The client rule and the server's settings rule disagree both ways:
      `Password1!` is accepted here and refused by the server (which does
      not allow `!`), and `password1@` the other way round (the server does
      not ask for an upper-case letter). */
  lemma RulesDisagreeWithServer()
    ensures IsPasswordValid("Password1!") && !Server.SettingsPasswordOk(Some("Password1!"))
    ensures !IsPasswordValid("password1@") && Server.SettingsPasswordOk(Some("password1@"))
  {
    var a := "Password1!";
    assert IsAsciiUpper(a[0]) && IsDigit(a[8]) && IsClientSpecial(a[9]);
    assert !Server.IsServerSpecial(a[9]) && !IsDigit(a[9]) && !Server.IsAsciiLetter(a[9]);
    var b := "password1@";
    assert Server.IsAsciiLetter(b[0]) && IsDigit(b[8]) && Server.IsServerSpecial(b[9]);
    assert forall i :: 0 <= i < |b| ==> Server.IsAsciiLetter(b[i]) || IsDigit(b[i]) || Server.IsServerSpecial(b[i]);
    assert forall i :: 0 <= i < |b| ==> !IsAsciiUpper(b[i]);
  }

  const InvalidPasswordError: string := "Password does not meet requirements"
  const SavedMessage: string := "Profile updated successfully"
  const SaveFailedError: string := "Error updating profile"

  /** The body of `PUT /api/users/settings`; an empty password is sent as
      `undefined`, which `JSON.stringify` leaves out. */
  datatype SettingsRequest = SettingsRequest(nickname: string, username: string, password: Option<string>)

  datatype ProfileForm = ProfileForm(nickname: string, username: string, password: string,
                                     error: string, message: string, isSaving: bool)

  /** How the save request ended. */
  datatype SaveReply = Saved | Refused(text: string) | NetworkError

  /** `handleSave` up to the request. */
  function Save(s: ProfileForm): (r: (ProfileForm, Option<SettingsRequest>))
    ensures r.1.None? <==> !IsPasswordValid(s.password)
    ensures r.1.None? ==> r.0 == s.(error := InvalidPasswordError, message := "", isSaving := false)
    ensures r.1.Some? ==> r.0 == s.(error := "", message := "", isSaving := true)
    ensures r.1.Some? ==> r.1.value.nickname == s.nickname && r.1.value.username == s.username
    ensures r.1.Some? ==> (r.1.value.password.None? <==> s.password == "")
    ensures r.1.Some? && s.password != "" ==> r.1.value.password == Some(s.password) && IsPasswordValid(s.password)
  {
    if s.password != "" && !IsPasswordValid(s.password) then
      (s.(error := InvalidPasswordError, message := "", isSaving := false), None)
    else
      (s.(error := "", message := "", isSaving := true),
       Some(SettingsRequest(s.nickname, s.username, if s.password == "" then None else Some(s.password))))
  }

  /** The rest of `handleSave`: success clears the password field and shows
      a message; otherwise an error is shown. Saving ends either way. */
  function OnSaveReply(s: ProfileForm, reply: SaveReply): (r: ProfileForm)
    ensures !r.isSaving && r.nickname == s.nickname && r.username == s.username
    ensures reply == Saved ==> r.message == SavedMessage
    ensures reply == Saved ==> r.password == "" && r.error == s.error
    ensures reply != Saved ==> r.password == s.password && r.message == s.message
    ensures reply.Refused? ==> r.error == "Error: " + reply.text
    ensures reply == NetworkError ==> r.error == SaveFailedError
  {
    match reply
    case Saved => s.(message := SavedMessage, password := "", isSaving := false)
    case Refused(text) => s.(error := "Error: " + text, isSaving := false)
    case NetworkError => s.(error := SaveFailedError, isSaving := false)
  }

  /** A password the server will refuse can still be sent, but a password
      the form refuses never is. */
  lemma SentPasswordsPassClientRules(s: ProfileForm)
    ensures Save(s).1.Some? && Save(s).1.value.password.Some? ==> IsPasswordValid(Save(s).1.value.password.value)
    ensures s.password == "Password1!" ==> Save(s).1 == Some(SettingsRequest(s.nickname, s.username, Some("Password1!")))
  {
    if s.password == "Password1!" {
      RulesDisagreeWithServer();
    }
  }

  /** The form's state fields. */
  class EditProfileForm {
    var nickname: string
    var username: string
    var password: string
    var error: string
    var message: string
    var isSaving: bool

    function State(): ProfileForm
      reads this
    {
      ProfileForm(nickname, username, password, error, message, isSaving)
    }

    constructor ()
      ensures State() == ProfileForm("", "", "", "", "", false)
    {
      nickname, username, password, error, message, isSaving := "", "", "", "", "", false;
    }

    method HandleSave() returns (request: Option<SettingsRequest>)
      modifies this
      ensures (State(), request) == Save(old(State()))
    {
      error := "";
      message := "";
      isSaving := true;
      if password != "" && !IsPasswordValid(password) {
        error := InvalidPasswordError;
        isSaving := false;
        return None;
      }
      request := Some(SettingsRequest(nickname, username, if password == "" then None else Some(password)));
    }

    method OnReply(reply: SaveReply)
      modifies this
      ensures State() == OnSaveReply(old(State()), reply)
    {
      match reply {
        case Saved =>
          message := SavedMessage;
          password := "";
        case Refused(text) =>
          error := "Error: " + text;
        case NetworkError =>
          error := SaveFailedError;
      }
      isSaving := false;
    }
  }
}
