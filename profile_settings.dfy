// The profile page (src/app/profile-settings/profile-settings.component.ts):
// profile and password changes written into the user table, account
// deletion, the four notification preferences under 'userPreferences', and
// the form error texts.

module ProfileSettings {
  import opened Common
  import opened Auth

  // ---------------------------------------------------------------------
  // Form rules

  /** `passwordMatchValidator`: the group error when the two entries differ. */
  function PasswordMismatch(newPassword: string, confirmPassword: string): (r: Option<string>)
    ensures r.Some? <==> newPassword != confirmPassword
    ensures r.Some? ==> r.value == "passwordMismatch"
  {
    if newPassword != confirmPassword then Some("passwordMismatch") else None
  }

  /** The validator errors a control can carry; a length error carries the required length. */
  datatype FieldErrors = FieldErrors(required: bool, email: bool, minlength: Option<int>, maxlength: Option<int>,
                                     pattern: bool)

  predicate HasErrors(e: FieldErrors)
  {
    e.required || e.email || e.minlength.Some? || e.maxlength.Some? || e.pattern
  }

  /**
   * `getFieldError`: nothing unless the field is touched and has errors;
   * then the first of required, email, minlength, maxlength, pattern.
   */
  function FieldError(touched: bool, e: FieldErrors): (r: Option<string>)
    ensures r.Some? <==> touched && HasErrors(e)
    ensures r.Some? && e.required ==> r.value == "This field is required"
    ensures r.Some? && !e.required && e.email ==> r.value == "Invalid email format"
    ensures r.Some? && !e.required && !e.email && e.minlength.Some? ==>
      r.value == "Minimum " + IntToText(e.minlength.value) + " characters required"
    ensures r.Some? && !e.required && !e.email && e.minlength.None? && e.maxlength.Some? ==>
      r.value == "Maximum " + IntToText(e.maxlength.value) + " characters allowed"
    ensures r.Some? && !e.required && !e.email && e.minlength.None? && e.maxlength.None? ==> r.value == "Invalid format"
  {
    if !(touched && HasErrors(e)) then None
    else if e.required then Some("This field is required")
    else if e.email then Some("Invalid email format")
    else if e.minlength.Some? then Some("Minimum " + IntToText(e.minlength.value) + " characters required")
    else if e.maxlength.Some? then Some("Maximum " + IntToText(e.maxlength.value) + " characters allowed")
    else Some("Invalid format")
  }

  /** `getPasswordMismatchError`: the mismatch is shown once the confirmation has been touched. */
  function MismatchShown(newPassword: string, confirmPassword: string, confirmTouched: bool): (r: bool)
    ensures r <==> newPassword != confirmPassword && confirmTouched
  {
    PasswordMismatch(newPassword, confirmPassword).Some? && confirmTouched
  }

  /** The profile form's values. */
  datatype ProfileForm = ProfileForm(name: string, email: string, phone: string, district: string, bio: string)

  const NoErrors: FieldErrors := FieldErrors(false, false, None, None, false)

  /** `Validators.minLength(n)`: an empty value is left to `required`. */
  function MinLength(v: string, n: int): Option<int>
  {
    if 0 < |v| < n then Some(n) else None
  }

  function MaxLength(v: string, n: int): Option<int>
  {
    if |v| > n then Some(n) else None
  }

  /** The phone pattern: 9 to 15 decimal digits; an empty value is not checked. */
  predicate PhoneFormatOk(phone: string)
  {
    phone == [] || (9 <= |phone| <= 15 && forall k :: 0 <= k < |phone| ==> IsDigit(phone[k]))
  }

  /** The profile form's controls and their errors; `emailWellFormed` stands for Angular's email validator. */
  datatype ProfileField = NameField | EmailField | PhoneField | DistrictField | BioField

  function ProfileErrors(form: ProfileForm, emailWellFormed: bool, field: ProfileField): FieldErrors
  {
    match field
    case NameField => NoErrors.(required := form.name == [], minlength := MinLength(form.name, 2))
    case EmailField => NoErrors.(required := form.email == [], email := form.email != [] && !emailWellFormed)
    case PhoneField => NoErrors.(pattern := !PhoneFormatOk(form.phone))
    case DistrictField => NoErrors
    case BioField => NoErrors.(maxlength := MaxLength(form.bio, 500))
  }

  /** `profileForm.invalid` negated: no control has an error. */
  predicate ProfileFormValid(form: ProfileForm, emailWellFormed: bool)
  {
    forall field :: !HasErrors(ProfileErrors(form, emailWellFormed, field))
  }

  /** A valid profile form has a name of two or more characters, a non-empty email, a well-formed phone and a short bio. */
  lemma ProfileFormValidMeans(form: ProfileForm, emailWellFormed: bool)
    ensures ProfileFormValid(form, emailWellFormed) <==>
      |form.name| >= 2 && form.email != [] && emailWellFormed && PhoneFormatOk(form.phone) && |form.bio| <= 500
  {
    if ProfileFormValid(form, emailWellFormed) {
      assert !HasErrors(ProfileErrors(form, emailWellFormed, NameField));
      assert !HasErrors(ProfileErrors(form, emailWellFormed, EmailField));
      assert !HasErrors(ProfileErrors(form, emailWellFormed, PhoneField));
      assert !HasErrors(ProfileErrors(form, emailWellFormed, BioField));
    }
  }

  /** A touched name of one character shows the minimum-length message with the number 2. */
  lemma ShortNameMessage(form: ProfileForm, emailWellFormed: bool)
    requires |form.name| == 1
    ensures FieldError(true, ProfileErrors(form, emailWellFormed, NameField)) == Some("Minimum 2 characters required")
  {
    assert DigitChar(2) == '2';
    assert IntToText(2) == "2";
    var e := ProfileErrors(form, emailWellFormed, NameField);
    assert !e.required && !e.email && e.minlength == Some(2);
    assert "Minimum " + IntToText(2) + " characters required" == "Minimum 2 characters required";
  }

  /** `passwordForm.invalid` negated: both passwords of six or more characters, a confirmation, and no mismatch. */
  predicate PasswordFormValid(currentPassword: string, newPassword: string, confirmPassword: string)
  {
    currentPassword != [] && MinLength(currentPassword, 6).None? &&
    newPassword != [] && MinLength(newPassword, 6).None? &&
    confirmPassword != [] && PasswordMismatch(newPassword, confirmPassword).None?
  }

  // ---------------------------------------------------------------------
  // The user table

  /** The first row with the id, -1 when none. */
  function IndexOfId(users: seq<StoredUser>, id: int): (i: int)
    ensures -1 <= i < |users|
    ensures i == -1 <==> forall k :: 0 <= k < |users| ==> users[k].id != id
    ensures i >= 0 ==> users[i].id == id && forall k :: 0 <= k < i ==> users[k].id != id
  {
    if users == [] then -1
    else if users[0].id == id then 0
    else
      var j := IndexOfId(users[1..], id);
      if j == -1 then -1 else j + 1
  }

  /** The row with the id of the signed-in user; an absent user matches no row. */
  function IndexOfCurrent(users: seq<StoredUser>, current: Option<User>): (i: int)
    ensures -1 <= i < |users|
    ensures current.None? ==> i == -1
    ensures current.Some? ==> i == IndexOfId(users, current.value.id)
  {
    if current.Some? then IndexOfId(users, current.value.id) else -1
  }

  /**
   * `saveProfile` on the table: the first row with the id gets the five form
   * fields and keeps its id and password; every other row is unchanged.
   */
  function WithProfile(users: seq<StoredUser>, i: int, form: ProfileForm): (r: seq<StoredUser>)
    requires 0 <= i < |users|
    ensures |r| == |users|
    ensures r[i].id == users[i].id && r[i].password == users[i].password
    ensures r[i].name == form.name && r[i].email == form.email && r[i].phone == Some(form.phone) &&
            r[i].district == Some(form.district) && r[i].bio == Some(form.bio)
    ensures forall k :: 0 <= k < |users| && k != i ==> r[k] == users[k]
  {
    users[i := users[i].(name := form.name, email := form.email, phone := Some(form.phone),
                         district := Some(form.district), bio := Some(form.bio))]
  }

  /** `changePassword` on the table: only the matched row's password changes. */
  function WithPassword(users: seq<StoredUser>, i: int, newPassword: string): (r: seq<StoredUser>)
    requires 0 <= i < |users|
    ensures |r| == |users| && r[i] == users[i].(password := newPassword)
    ensures forall k :: 0 <= k < |users| && k != i ==> r[k] == users[k]
  {
    users[i := users[i].(password := newPassword)]
  }

  /** After a password change the account logs in with the new password (emails unique). */
  lemma NewPasswordLogsIn(users: seq<StoredUser>, i: int, newPassword: string)
    requires 0 <= i < |users| && UniqueEmails(users)
    ensures FindLogin(WithPassword(users, i, newPassword), users[i].email, newPassword) ==
      Some(users[i].(password := newPassword))
  {
    var r := WithPassword(users, i, newPassword);
    var found := FindLogin(r, users[i].email, newPassword);
    var k :| 0 <= k < |r| && r[k] == found.value;
    assert r[k].email == users[i].email;
  }

  /** After a password change the old password no longer logs that account in, when it differs. */
  lemma OldPasswordRejected(users: seq<StoredUser>, i: int, newPassword: string)
    requires 0 <= i < |users| && UniqueEmails(users) && users[i].password != newPassword
    ensures FindLogin(WithPassword(users, i, newPassword), users[i].email, users[i].password).None?
  {
    var r := WithPassword(users, i, newPassword);
    forall u | u in r ensures !(u.email == users[i].email && u.password == users[i].password) {
      var k :| 0 <= k < |r| && r[k] == u;
      if k != i {
        assert r[k] == users[k];
      }
    }
  }

  /** `deleteAccount` on the table: every row with the signed-in id goes; with nobody signed in, none does. */
  function WithoutAccount(users: seq<StoredUser>, current: Option<User>): (r: seq<StoredUser>)
    ensures current.Some? ==> forall u :: u in r <==> u in users && u.id != current.value.id
    ensures current.None? ==> r == users
  {
    if current.Some? then Filter(users, (u: StoredUser) => u.id != current.value.id) else users
  }

  // ---------------------------------------------------------------------
  // Preferences

  datatype Preference = EmailPref | SmsPref | WeeklyPref | AppointmentsPref

  datatype Preferences = Preferences(emailNotifications: bool, smsNotifications: bool, weeklyReports: bool,
                                     appointmentReminders: bool)

  /** The stored preferences; a field may be missing (`undefined`/`null`). */
  datatype StoredPreferences = StoredPreferences(emailNotifications: Option<bool>, smsNotifications: Option<bool>,
                                                 weeklyReports: Option<bool>, appointmentReminders: Option<bool>)

  const DefaultPreferences: Preferences := Preferences(true, false, true, true)

  /** `loadPreferences`: each missing stored field takes its default. */
  function FromStored(s: StoredPreferences): (r: Preferences)
    ensures s.emailNotifications.None? ==> r.emailNotifications
    ensures s.smsNotifications.None? ==> !r.smsNotifications
    ensures s.weeklyReports.None? ==> r.weeklyReports
    ensures s.appointmentReminders.None? ==> r.appointmentReminders
    ensures s.emailNotifications.Some? ==> r.emailNotifications == s.emailNotifications.value
    ensures s.smsNotifications.Some? ==> r.smsNotifications == s.smsNotifications.value
    ensures s.weeklyReports.Some? ==> r.weeklyReports == s.weeklyReports.value
    ensures s.appointmentReminders.Some? ==> r.appointmentReminders == s.appointmentReminders.value
  {
    Preferences(s.emailNotifications.GetOr(true), s.smsNotifications.GetOr(false),
                s.weeklyReports.GetOr(true), s.appointmentReminders.GetOr(true))
  }

  function ToStored(p: Preferences): StoredPreferences
  {
    StoredPreferences(Some(p.emailNotifications), Some(p.smsNotifications), Some(p.weeklyReports),
                      Some(p.appointmentReminders))
  }

  /** Saving then loading the preferences gives them back. */
  lemma PreferencesRoundTrip(p: Preferences)
    ensures FromStored(ToStored(p)) == p
  {
  }

  /** `togglePreference` on the value: exactly the named flag flips. */
  function Toggled(p: Preferences, which: Preference): (r: Preferences)
    ensures r.emailNotifications == (p.emailNotifications != (which == EmailPref))
    ensures r.smsNotifications == (p.smsNotifications != (which == SmsPref))
    ensures r.weeklyReports == (p.weeklyReports != (which == WeeklyPref))
    ensures r.appointmentReminders == (p.appointmentReminders != (which == AppointmentsPref))
  {
    match which
    case EmailPref => p.(emailNotifications := !p.emailNotifications)
    case SmsPref => p.(smsNotifications := !p.smsNotifications)
    case WeeklyPref => p.(weeklyReports := !p.weeklyReports)
    case AppointmentsPref => p.(appointmentReminders := !p.appointmentReminders)
  }

  /** Toggling the same preference twice restores the preferences. */
  lemma ToggleTwiceRestores(p: Preferences, which: Preference)
    ensures Toggled(Toggled(p, which), which) == p
  {
  }

  const ProfileSaved: string := "Profile updated successfully!"
  const ProfileError: string := "Error updating profile. Please try again."
  const PasswordChanged: string := "Password changed successfully!"
  const PasswordWrong: string := "Current password is incorrect."
  const PreferencesSaved: string := "Preferences updated successfully!"

  datatype Tab = ProfileTab | PasswordTab | PreferencesTab

  /** The page. */
  class ProfileSettingsPage {
    const auth: AuthService
    var currentUser: Option<User>
    var redirectedToLogin: bool
    var activeTab: Tab
    var isEditingProfile: bool
    var isSavingProfile: bool
    var isChangingPassword: bool
    var successMessage: Option<string>
    var errorMessage: Option<string>
    var prefs: Preferences
    /** The key 'userPreferences'. */
    var prefsCell: Cell<StoredPreferences>
    /** The 3-second `clearMessages` timeouts scheduled and not yet fired. */
    var pendingClears: nat

    constructor (auth: AuthService, prefsCell: Cell<StoredPreferences>)
      ensures this.auth == auth && this.prefsCell == prefsCell && prefs == DefaultPreferences
      ensures activeTab == ProfileTab
      ensures currentUser.None? && !redirectedToLogin && !isEditingProfile && !isSavingProfile && !isChangingPassword
      ensures successMessage.None? && errorMessage.None? && pendingClears == 0
    {
      this.auth := auth;
      currentUser := None;
      redirectedToLogin := false;
      activeTab := ProfileTab;
      isEditingProfile := false;
      isSavingProfile := false;
      isChangingPassword := false;
      successMessage := None;
      errorMessage := None;
      prefs := DefaultPreferences;
      this.prefsCell := prefsCell;
      pendingClears := 0;
    }

    /** `ngOnInit`: with nobody signed in, go to login; otherwise take the user and load the preferences. */
    method Init()
      modifies this`currentUser, this`redirectedToLogin, this`prefs
      ensures auth.current.None? ==> redirectedToLogin && currentUser == old(currentUser) && prefs == old(prefs)
      ensures auth.current.Some? ==> currentUser == auth.current && redirectedToLogin == old(redirectedToLogin)
      ensures auth.current.Some? && prefsCell.Stored? ==> prefs == FromStored(prefsCell.value)
      ensures auth.current.Some? && !prefsCell.Stored? ==> prefs == old(prefs)
    {
      if auth.current.None? {
        redirectedToLogin := true;
        return;
      }
      currentUser := auth.current;
      LoadPreferences();
    }

    /** `loadPreferences`: an absent or unparsable key leaves the current values. */
    method LoadPreferences()
      modifies this`prefs
      ensures prefsCell.Stored? ==> prefs == FromStored(prefsCell.value)
      ensures !prefsCell.Stored? ==> prefs == old(prefs)
    {
      if prefsCell.Stored? {
        prefs := FromStored(prefsCell.value);
      }
    }

    /**
     * `togglePreference`: flip one flag, save all four, report success and
     * schedule the timeout that clears the messages 3 seconds later.
     */
    method TogglePreference(which: Preference)
      modifies this`prefs, this`prefsCell, this`successMessage, this`pendingClears
      ensures prefs == Toggled(old(prefs), which)
      ensures prefsCell == Stored(ToStored(prefs)) && successMessage == Some(PreferencesSaved)
      ensures pendingClears == old(pendingClears) + 1
    {
      prefs := Toggled(prefs, which);
      prefsCell := Stored(ToStored(prefs));
      successMessage := Some(PreferencesSaved);
      pendingClears := pendingClears + 1;
    }

    /**
     * One scheduled clear timeout fires: both messages go, including one a
     * later toggle set before this timeout was due.
     */
    method ClearTimeoutFires()
      requires pendingClears > 0
      modifies this`successMessage, this`errorMessage, this`pendingClears
      ensures successMessage.None? && errorMessage.None? && pendingClears == old(pendingClears) - 1
    {
      ClearMessages();
      pendingClears := pendingClears - 1;
    }

    method ClearMessages()
      modifies this`successMessage, this`errorMessage
      ensures successMessage.None? && errorMessage.None?
    {
      successMessage := None;
      errorMessage := None;
    }

    /** `setActiveTab`: switching tabs clears both messages. */
    method SetActiveTab(tab: Tab)
      modifies this`activeTab, this`successMessage, this`errorMessage
      ensures activeTab == tab && successMessage.None? && errorMessage.None?
    {
      activeTab := tab;
      ClearMessages();
    }

    /** `toggleEditProfile`: editing starts or is cancelled, and both messages are cleared. */
    method ToggleEditProfile()
      modifies this`isEditingProfile, this`successMessage, this`errorMessage
      ensures isEditingProfile == !old(isEditingProfile) && successMessage.None? && errorMessage.None?
    {
      isEditingProfile := !isEditingProfile;
      ClearMessages();
    }

    /**
     * `saveProfile` with its delayed body run at once. An invalid form stops
     * before anything changes. The row of the signed-in user gets the form
     * fields, and the saved user and this page's user become (id, email,
     * name); without such a row an error is shown. Unparsable 'users' makes
     * the parse throw inside the delayed body, leaving the page saving.
     */
    method SaveProfile(form: ProfileForm, emailWellFormed: bool)
      modifies this`isSavingProfile, this`successMessage, this`errorMessage, this`currentUser,
        this`isEditingProfile, auth.store
      ensures !ProfileFormValid(form, emailWellFormed) ==>
        auth.store.users == old(auth.store.users) && auth.store.saved == old(auth.store.saved) &&
        currentUser == old(currentUser) && isSavingProfile == old(isSavingProfile) &&
        successMessage == old(successMessage) && errorMessage == old(errorMessage) &&
        isEditingProfile == old(isEditingProfile)
      ensures ProfileFormValid(form, emailWellFormed) && old(auth.store.users).Unparsable? ==>
        auth.store.users == old(auth.store.users) && auth.store.saved == old(auth.store.saved) &&
        currentUser == old(currentUser) && isSavingProfile && successMessage.None? && errorMessage.None? &&
        isEditingProfile == old(isEditingProfile)
      ensures ProfileFormValid(form, emailWellFormed) && !old(auth.store.users).Unparsable? ==> !isSavingProfile
      ensures ProfileFormValid(form, emailWellFormed) && !old(auth.store.users).Unparsable? &&
              IndexOfCurrent(Loaded(old(auth.store.users)), old(currentUser)) == -1 ==>
        auth.store.users == old(auth.store.users) && auth.store.saved == old(auth.store.saved) &&
        currentUser == old(currentUser) && errorMessage == Some(ProfileError) && successMessage.None? &&
        isEditingProfile == old(isEditingProfile)
      ensures ProfileFormValid(form, emailWellFormed) && !old(auth.store.users).Unparsable? &&
              IndexOfCurrent(Loaded(old(auth.store.users)), old(currentUser)) != -1 ==>
        var users := Loaded(old(auth.store.users));
        var i := IndexOfCurrent(users, old(currentUser));
        auth.store.users == Stored(WithProfile(users, i, form)) &&
        currentUser == Some(User(users[i].id, form.email, form.name)) && auth.store.saved == Stored(currentUser.value) &&
        successMessage == Some(ProfileSaved) && errorMessage.None? && !isEditingProfile
    {
      if !ProfileFormValid(form, emailWellFormed) {
        return;
      }
      isSavingProfile := true;
      ClearMessages();
      if auth.store.users.Unparsable? {
        return;
      }
      var users := Loaded(auth.store.users);
      var userIndex := IndexOfCurrent(users, currentUser);
      if userIndex != -1 {
        users := WithProfile(users, userIndex, form);
        auth.store.users := Stored(users);
        var updatedUser := User(users[userIndex].id, form.email, form.name);
        auth.store.saved := Stored(updatedUser);
        currentUser := Some(updatedUser);
        successMessage := Some(ProfileSaved);
        isEditingProfile := false;
      } else {
        errorMessage := Some(ProfileError);
      }
      isSavingProfile := false;
    }

    /**
     * `changePassword` with its delayed body run at once: only when the
     * signed-in user's row holds `currentPassword` is its password replaced;
     * otherwise an error and the table is unchanged.
     */
    method ChangePassword(currentPassword: string, newPassword: string, confirmPassword: string)
      modifies this`isChangingPassword, this`successMessage, this`errorMessage, auth.store`users
      ensures !PasswordFormValid(currentPassword, newPassword, confirmPassword) ==>
        auth.store.users == old(auth.store.users) && isChangingPassword == old(isChangingPassword) &&
        successMessage == old(successMessage) && errorMessage == old(errorMessage)
      ensures PasswordFormValid(currentPassword, newPassword, confirmPassword) && old(auth.store.users).Unparsable? ==>
        auth.store.users == old(auth.store.users) && isChangingPassword && successMessage.None? && errorMessage.None?
      ensures PasswordFormValid(currentPassword, newPassword, confirmPassword) && !old(auth.store.users).Unparsable? ==>
        var users := Loaded(old(auth.store.users));
        var i := IndexOfCurrent(users, currentUser);
        !isChangingPassword &&
        (i != -1 && users[i].password == currentPassword ==>
          auth.store.users == Stored(WithPassword(users, i, newPassword)) &&
          successMessage == Some(PasswordChanged) && errorMessage.None? &&
          |newPassword| >= 6 && newPassword == confirmPassword) &&
        (!(i != -1 && users[i].password == currentPassword) ==>
          auth.store.users == old(auth.store.users) && errorMessage == Some(PasswordWrong) && successMessage.None?)
    {
      if !PasswordFormValid(currentPassword, newPassword, confirmPassword) {
        return;
      }
      isChangingPassword := true;
      ClearMessages();
      if auth.store.users.Unparsable? {
        return;
      }
      var users := Loaded(auth.store.users);
      var index := IndexOfCurrent(users, currentUser);
      if index != -1 && users[index].password == currentPassword {
        auth.store.users := Stored(WithPassword(users, index, newPassword));
        successMessage := Some(PasswordChanged);
      } else {
        errorMessage := Some(PasswordWrong);
      }
      isChangingPassword := false;
    }

    /**
     * `deleteAccount`: after confirmation, every row with the signed-in id
     * is removed and the user is logged out.
     */
    method DeleteAccount(confirmed: bool)
      modifies auth.store, auth`current, this`redirectedToLogin
      ensures !confirmed ==>
        auth.store.users == old(auth.store.users) && auth.store.saved == old(auth.store.saved) &&
        auth.current == old(auth.current) && redirectedToLogin == old(redirectedToLogin)
      ensures confirmed && old(auth.store.users).Unparsable? ==>
        auth.store.users == old(auth.store.users) && auth.store.saved == old(auth.store.saved) &&
        auth.current == old(auth.current) && redirectedToLogin == old(redirectedToLogin)
      ensures confirmed && !old(auth.store.users).Unparsable? ==>
        auth.store.users == Stored(WithoutAccount(Loaded(old(auth.store.users)), currentUser)) &&
        auth.current.None? && auth.store.saved.Absent? && redirectedToLogin
    {
      if !confirmed {
        return;
      }
      if auth.store.users.Unparsable? {
        return;
      }
      var users := Loaded(auth.store.users);
      auth.store.users := Stored(WithoutAccount(users, currentUser));
      auth.Logout();
      redirectedToLogin := true;
    }
  }
}
