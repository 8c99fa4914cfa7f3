/** The profile page: the form kept in step with the signed-in user, the password check,
    the update it sends, and the reset of the password fields. */
module Profile {
  import opened Wrappers
  import opened Js
  import Http
  import Auth
  import Browser

  datatype ProfileForm = ProfileForm(name: string, username: string, email: string, password: string, confirmPassword: string)

  /** The inputs, by their `name` attribute. */
  datatype Field = NameField | UsernameField | EmailField | PasswordField | ConfirmPasswordField

  /** The banner: its kind ("", "error" or "success") and its text, which may be undefined. */
  datatype Message = Message(kind: string, text: Option<string>)

  const EmptyForm := ProfileForm("", "", "", "", "")
  const NoMessage := Message("", Some(""))

  /** The three account fields show the user's values, missing ones as empty. */
  predicate ShowsUser(form: ProfileForm, user: Auth.User) {
    form.name == Or(user.name, "") && form.username == Or(user.username, "") && form.email == Or(user.email, "")
  }

  /** The updater of the user-sync effect: the prior form when it already shows the user,
      else the prior form with just the three account fields overwritten. */
  function SyncWithUser(prev: ProfileForm, user: Auth.User): (r: ProfileForm)
    ensures ShowsUser(r, user)
    ensures r.password == prev.password && r.confirmPassword == prev.confirmPassword
    ensures ShowsUser(prev, user) ==> r == prev
  {
    if ShowsUser(prev, user) then prev
    else prev.(name := Or(user.name, ""), username := Or(user.username, ""), email := Or(user.email, ""))
  }

  function FieldValue(form: ProfileForm, field: Field): string {
    match field
    case NameField => form.name
    case UsernameField => form.username
    case EmailField => form.email
    case PasswordField => form.password
    case ConfirmPasswordField => form.confirmPassword
  }

  /** `{ ...prev, [name]: value }`: the named input takes the value, nothing else moves. */
  function WithField(form: ProfileForm, field: Field, value: string): (r: ProfileForm)
    ensures FieldValue(r, field) == value
    ensures forall f :: f != field ==> FieldValue(r, f) == FieldValue(form, f)
  {
    match field
    case NameField => form.(name := value)
    case UsernameField => form.(username := value)
    case EmailField => form.(email := value)
    case PasswordField => form.(password := value)
    case ConfirmPasswordField => form.(confirmPassword := value)
  }

  /** A new password that its confirmation does not repeat; an empty password is never a
      mismatch, whatever the confirmation holds. */
  predicate PasswordsMismatch(form: ProfileForm) {
    form.password != "" && form.password != form.confirmPassword
  }

  /** `dataToSend`: name, username and email always, the password only when one was typed,
      the confirmation never. */
  function ProfilePayload(form: ProfileForm): (r: map<string, string>)
    ensures r.Keys == {"name", "username", "email"} + (if form.password != "" then {"password"} else {})
    ensures r["name"] == form.name && r["username"] == form.username && r["email"] == form.email
    ensures form.password != "" ==> r["password"] == form.password
    ensures "confirmPassword" !in r
  {
    var base := map["name" := form.name, "username" := form.username, "email" := form.email];
    if form.password != "" then base["password" := form.password] else base
  }

  /** The two password inputs emptied, the account fields kept. */
  function ClearPasswords(form: ProfileForm): (r: ProfileForm)
    ensures r.password == "" && r.confirmPassword == ""
    ensures r.name == form.name && r.username == form.username && r.email == form.email
  {
    form.(password := "", confirmPassword := "")
  }

  class ProfilePage {
    var formData: ProfileForm
    var loading: bool
    var message: Message

    constructor ()
      ensures formData == EmptyForm && !loading && message == NoMessage
    {
      formData := EmptyForm;
      loading := false;
      message := NoMessage;
    }

    /** The user-sync effect, run when the signed-in user changes. */
    method SyncUser(user: Option<Auth.User>)
      modifies this`formData
      ensures user.Some? ==> formData == SyncWithUser(old(formData), user.value)
      ensures user.None? ==> formData == old(formData)
    {
      if user.Some? {
        formData := SyncWithUser(formData, user.value);
      }
    }

    method HandleChange(field: Field, value: string)
      modifies this`formData
      ensures formData == WithField(old(formData), field, value)
    {
      formData := WithField(formData, field, value);
    }

    /** `handleSubmit`: a mismatch is reported and nothing is sent; otherwise the payload
        goes to the context's `updateProfile` and its outcome is shown. */
    method HandleSubmit(auth: Auth.AuthProvider, put: Http.Reply<Option<Http.StatusBody>>, me: Http.Reply<Option<Auth.MePayload>>)
      returns (sent: Option<map<string, string>>)
      modifies this`formData, this`loading, this`message, auth`user, auth.api.window`storage, auth.api.window`location
      ensures PasswordsMismatch(old(formData)) ==>
        && sent == None
        && message == Message("error", Some("Passwords do not match"))
        && formData == old(formData) && loading == old(loading)
        && auth.user == old(auth.user)
        && auth.api.window.storage == old(auth.api.window.storage)
        && auth.api.window.location == old(auth.api.window.location)
      ensures !PasswordsMismatch(old(formData)) ==> sent == Some(ProfilePayload(old(formData))) && !loading
      ensures !PasswordsMismatch(old(formData)) && Auth.UpdateOutcome(put, me).Success? ==>
        && message == Message("success", Some("Profile updated successfully"))
        && formData == ClearPasswords(old(formData))
        && auth.user == Auth.SelectUpdatedUser(me.body)
        && auth.api.window.storage ==
             old(auth.api.window.storage)[Browser.UserKey := auth.codec.encode(Auth.SelectUpdatedUser(me.body).value)]
        && auth.api.window.location == old(auth.api.window.location)
      ensures !PasswordsMismatch(old(formData)) && Auth.UpdateOutcome(put, me).Failure? ==>
        && message == Message("error", Auth.UpdateOutcome(put, me).message)
        && formData == old(formData)
        && auth.user == old(auth.user)
        && auth.api.window.storage == Http.StorageAfter(old(auth.api.window.storage), Auth.UpdateError(put, me))
        && auth.api.window.location == Http.LocationAfter(old(auth.api.window.location), Auth.UpdateError(put, me))
    {
      message := NoMessage;
      if formData.password != "" && formData.password != formData.confirmPassword {
        message := Message("error", Some("Passwords do not match"));
        return None;
      }
      loading := true;
      var dataToSend := ProfilePayload(formData);
      sent := Some(dataToSend);
      var result := auth.UpdateProfile(dataToSend, put, me);
      if result.Success? {
        message := Message("success", Some("Profile updated successfully"));
        formData := ClearPasswords(formData);
      } else {
        message := Message("error", result.message);
      }
      loading := false;
    }

    /** The Reset button. */
    method Reset()
      modifies this`formData
      ensures formData == ClearPasswords(old(formData))
    {
      formData := ClearPasswords(formData);
    }
  }
}
