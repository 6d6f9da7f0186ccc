/** The profile page: the form filled from the stored user with fallbacks to
    the signed-in account, the one-field edit handlers, and the edit mode. */
module MyProfile {
  import opened Js
  import opened Records

  /** The stored user as `GET /users/<email>` returns it; any field may be missing. */
  datatype StoredProfile = StoredProfile(
    name: Option<string>, email: Option<string>, bloodGroup: Option<string>,
    district: Option<string>, upazila: Option<string>, avatar: Option<string>)

  /** `formData`. After a failed load the three fields copied from the account
      may be absent, so they are optional; the others are always strings. */
  datatype FormData = FormData(
    name: Option<string>, email: Option<string>, bloodGroup: string,
    district: string, upazila: string, avatar: Option<string>)

  const EmptyForm := FormData(Some(""), Some(""), "", "", "", Some(""))

  /** The six inputs of the form. */
  datatype Field = Name | Email | BloodGroup | District | Upazila | Avatar

  /** The form after a successful load: each field is the stored value when
      truthy, otherwise the account's value for name, email and avatar, otherwise "". */
  function Merged(server: StoredProfile, user: AuthUser): (f: FormData)
    ensures f.name == Some(if Truthy(server.name) then server.name.value
                           else if Truthy(user.displayName) then user.displayName.value else "")
    ensures f.email == Some(if Truthy(server.email) then server.email.value
                            else if Truthy(user.email) then user.email.value else "")
    ensures f.avatar == Some(if Truthy(server.avatar) then server.avatar.value
                             else if Truthy(user.photoURL) then user.photoURL.value else "")
    ensures f.bloodGroup == (if Truthy(server.bloodGroup) then server.bloodGroup.value else "")
    ensures f.district == (if Truthy(server.district) then server.district.value else "")
    ensures f.upazila == (if Truthy(server.upazila) then server.upazila.value else "")
  {
    FormData(
      Some(OrDefault(Or(server.name, user.displayName), "")),
      Some(OrDefault(Or(server.email, user.email), "")),
      OrDefault(server.bloodGroup, ""),
      OrDefault(server.district, ""),
      OrDefault(server.upazila, ""),
      Some(OrDefault(Or(server.avatar, user.photoURL), "")))
  }

  /** A stored profile with every field filled is shown as stored, whatever the account says. */
  lemma StoredValuesWin(server: StoredProfile, user: AuthUser)
    requires Truthy(server.name) && Truthy(server.email) && Truthy(server.bloodGroup)
    requires Truthy(server.district) && Truthy(server.upazila) && Truthy(server.avatar)
    ensures Merged(server, user) ==
      FormData(server.name, server.email, server.bloodGroup.value, server.district.value,
               server.upazila.value, server.avatar)
  {
  }

  /** With nothing stored, the account fills name, email and avatar and the rest stay empty. */
  lemma AccountFillsGaps(user: AuthUser)
    ensures var f := Merged(StoredProfile(None, None, None, None, None, None), user);
      f.name == Some(OrDefault(user.displayName, "")) &&
      f.email == Some(OrDefault(user.email, "")) &&
      f.avatar == Some(OrDefault(user.photoURL, "")) &&
      f.bloodGroup == "" && f.district == "" && f.upazila == ""
  {
  }

  /** The value an input shows. */
  function Get(f: FormData, field: Field): Option<string> {
    match field
    case Name => f.name
    case Email => f.email
    case BloodGroup => Some(f.bloodGroup)
    case District => Some(f.district)
    case Upazila => Some(f.upazila)
    case Avatar => f.avatar
  }

  /** `setFormData({...formData, <field>: value})` */
  function SetField(f: FormData, field: Field, value: string): (g: FormData)
    ensures Get(g, field) == Some(value)
    ensures forall other :: other != field ==> Get(g, other) == Get(f, other)
  {
    match field
    case Name => f.(name := Some(value))
    case Email => f.(email := Some(value))
    case BloodGroup => f.(bloodGroup := value)
    case District => f.(district := value)
    case Upazila => f.(upazila := value)
    case Avatar => f.(avatar := Some(value))
  }

  /** `disabled={...}` on an input: the email is never editable, the rest only in edit mode. */
  predicate InputDisabled(field: Field, isEditable: bool) {
    field == Email || !isEditable
  }

  /** A save counts as applied when the service changed or created the record. */
  predicate SaveApplied(modifiedCount: int, upsertedCount: int) {
    modifiedCount > 0 || upsertedCount > 0
  }

  class ProfilePage {
    const user: AuthUser
    var formData: FormData
    var isEditable: bool
    var loading: bool

    constructor (user: AuthUser)
      ensures this.user == user && formData == EmptyForm && !isEditable && loading
    {
      this.user := user;
      formData, isEditable, loading := EmptyForm, false, true;
    }

    /** The load succeeded; the request is only made for an account with an email. */
    method Loaded(server: StoredProfile)
      requires Truthy(user.email)
      modifies this
      ensures formData == Merged(server, user) && !loading && isEditable == old(isEditable)
    {
      formData := Merged(server, user);
      loading := false;
    }

    /** The load failed: the account's name, email and photo replace those
        fields, possibly with nothing; the other fields keep their values. */
    method LoadFailed()
      requires Truthy(user.email)
      modifies this
      ensures formData == old(formData).(name := user.displayName, email := user.email, avatar := user.photoURL)
      ensures Get(formData, BloodGroup) == Get(old(formData), BloodGroup)
      ensures Get(formData, District) == Get(old(formData), District)
      ensures Get(formData, Upazila) == Get(old(formData), Upazila)
      ensures !loading && isEditable == old(isEditable)
    {
      loading := false;
      formData := formData.(name := user.displayName, email := user.email, avatar := user.photoURL);
    }

    /** The `onChange` of an enabled input. */
    method Edit(field: Field, value: string)
      requires !InputDisabled(field, isEditable)
      modifies this
      ensures formData == SetField(old(formData), field, value)
      ensures isEditable == old(isEditable) && loading == old(loading)
    {
      formData := SetField(formData, field, value);
    }

    /** The Edit Profile button. */
    method StartEdit()
      modifies this
      ensures isEditable && formData == old(formData) && loading == old(loading)
    {
      isEditable := true;
    }

    /** The Cancel button: edit mode ends, the edited values stay in the form. */
    method Cancel()
      modifies this
      ensures !isEditable && formData == old(formData) && loading == old(loading)
    {
      isEditable := false;
    }

    /** `handleSave`, given the counts of the `PATCH` response. */
    method Save(modifiedCount: int, upsertedCount: int)
      modifies this
      ensures isEditable == (old(isEditable) && !SaveApplied(modifiedCount, upsertedCount))
      ensures formData == old(formData) && loading == old(loading)
    {
      if SaveApplied(modifiedCount, upsertedCount) {
        isEditable := false;
      }
    }
  }

  /** The email can never be edited: its input is disabled in every mode. */
  lemma EmailNeverEditable(isEditable: bool)
    ensures InputDisabled(Email, isEditable)
  {
  }
}
