/** SettingsFragment.java. The file holds an unresolved merge conflict; the
    model follows its HEAD side (the name/bio form with an in-flight flag, the
    profile created on first visit, and the displayed-name fallback), and
    states the other side's two guard chains as separate functions.

    The `users` collection is a map from uid to profile; the profile cache is
    the last profile handed to it. A write's outcome is a parameter, and the
    asynchronous update is split into its start and its completion. */
module Settings {
  import opened Common
  import opened Models
  import ProfileScreen

  // ---------------------------------------------------------------------
  // Name validation and change detection (HEAD)

  /** `validateInputs`: the error for the trimmed name, if any. The bio is
      never checked. */
  function NameError(name: string): (r: Option<string>)
    ensures r.None? <==> 2 <= |name| <= 30
    ensures name == "" ==> r == Some("Name should not be empty")
    ensures 0 < |name| < 2 ==> r == Some("Name must be at least 2 characters")
    ensures |name| > 30 ==> r == Some("Name must be less than 30 characters")
  {
    if name == "" then Some("Name should not be empty")
    else if |name| < 2 then Some("Name must be at least 2 characters")
    else if |name| > 30 then Some("Name must be less than 30 characters")
    else None
  }

  /** Nothing to save: the stored profile already holds this name and bio. */
  predicate Unchanged(profile: Option<UserProfile>, name: string, bio: string)
  {
    profile.Some? && profile.value.name == Some(name) && profile.value.bio == Some(bio)
  }

  // ---------------------------------------------------------------------
  // Names (HEAD)

  /** The name of a profile created on first visit: the display name when it
      is non-blank, otherwise the part of the e-mail before '@'. None when
      that throws: a null e-mail, or one made only of '@'. */
  function NewProfileName(displayName: Option<string>, email: Option<string>): (r: Option<string>)
    ensures displayName.Some? && JavaTrim(displayName.value) != "" ==> r == displayName
    ensures !(displayName.Some? && JavaTrim(displayName.value) != "") ==>
      r == (if email.None? then None else EmailPrefix(email.value))
  {
    if displayName.Some? && JavaTrim(displayName.value) != "" then displayName
    else if email.None? then None
    else EmailPrefix(email.value)
  }

  /** A fallback name never holds an '@' and is a prefix of the e-mail. */
  lemma FallbackNameIsEmailPrefix(displayName: Option<string>, email: Option<string>)
    requires displayName.None? || JavaTrim(displayName.value) == ""
    requires email.Some?
    ensures var r := NewProfileName(displayName, email);
      r.Some? ==> '@' !in r.value && r.value <= email.value
  {
  }

  /** `updateUI`: the profile's name, or "Food Explorer" when it is null or blank. */
  function ShownName(profile: UserProfile): (r: string)
    ensures profile.name.Some? && JavaTrim(profile.name.value) != "" ==> r == profile.name.value
    ensures !(profile.name.Some? && JavaTrim(profile.name.value) != "") ==> r == "Food Explorer"
  {
    if profile.name.Some? && JavaTrim(profile.name.value) != "" then profile.name.value else "Food Explorer"
  }

  /** The shown name is never blank. */
  lemma ShownNameNotBlank(profile: UserProfile)
    ensures JavaTrim(ShownName(profile)) != ""
  {
    var r := ShownName(profile);
    if r == "Food Explorer" {
      assert !JavaSpace(r[0]);
      TrimEmptyIffBlank(r, JavaSpace);
    }
  }

  /** The signed-in Firebase user. */
  datatype AuthUser = AuthUser(uid: string, displayName: Option<string>, email: Option<string>)

  // ---------------------------------------------------------------------
  // The screen (HEAD)

  class SettingsScreen {
    const currentUser: Option<AuthUser>
    var userProfile: Option<UserProfile>
    var isUpdating: bool
    var updateEnabled: bool
    var nameError: Option<string>
    /** The `users` collection. */
    var users: map<string, UserProfile>
    /** What the profile cache holds. */
    var cached: Option<UserProfile>
    /** The name, bio and time of the write in flight. */
    var pending: Option<(string, string, Long)>

    /** The button is disabled exactly while a write is in flight. */
    predicate Valid()
      reads this
    {
      (isUpdating <==> pending.Some?) && updateEnabled == !isUpdating
    }

    constructor (currentUser: Option<AuthUser>, users: map<string, UserProfile>, cached: Option<UserProfile>)
      ensures Valid()
      ensures this.currentUser == currentUser && this.users == users && this.cached == cached
      ensures userProfile.None? && !isUpdating && nameError.None?
    {
      this.currentUser := currentUser;
      this.users := users;
      this.cached := cached;
      userProfile := None;
      isUpdating := false;
      updateEnabled := true;
      nameError := None;
      pending := None;
    }

    /** `updateProfile` up to issuing the write. Nothing happens with no
        user or while a write is in flight; an invalid name shows its error;
        an unchanged profile writes nothing. */
    method UpdateProfile(nameRaw: string, bioRaw: string, now: Long)
      requires Valid()
      modifies this
      ensures Valid()
      ensures users == old(users) && cached == old(cached) && userProfile == old(userProfile)
      ensures currentUser.None? || old(isUpdating) ==>
        nameError == old(nameError) && pending == old(pending)
      ensures currentUser.Some? && !old(isUpdating) ==>
        nameError == NameError(JavaTrim(nameRaw))
        && pending ==
          (if NameError(JavaTrim(nameRaw)).None? && !Unchanged(userProfile, JavaTrim(nameRaw), JavaTrim(bioRaw))
           then Some((JavaTrim(nameRaw), JavaTrim(bioRaw), now))
           else None)
    {
      if currentUser.None? || isUpdating {
        return;
      }
      var name := JavaTrim(nameRaw);
      var bio := JavaTrim(bioRaw);
      nameError := NameError(name);
      if nameError.Some? {
        return;
      }
      if Unchanged(userProfile, name, bio) {
        return;
      }
      isUpdating := true;
      updateEnabled := false;
      pending := Some((name, bio, now));
    }

    /** The write's completion listener: the flag and button are reset on
        both outcomes; only a successful write updates the stored document,
        the local profile and the cache. An `update` of a missing document
        fails, so `ok` counts only when the user's document exists. */
    method CompleteUpdate(ok: bool)
      requires Valid()
      modifies this
      ensures Valid()
      ensures !isUpdating && pending.None?
      ensures old(pending).None? || !ok || currentUser.None? || currentUser.value.uid !in old(users) ==>
        users == old(users) && userProfile == old(userProfile) && cached == old(cached)
        && nameError == old(nameError)
      ensures old(pending).Some? && ok && currentUser.Some? && currentUser.value.uid in old(users) ==>
        var (name, bio, at) := old(pending).value;
        var uid := currentUser.value.uid;
        users == old(users)[uid := old(users)[uid].(name := Some(name), bio := Some(bio), updatedAt := at)]
        && userProfile == (if old(userProfile).Some?
                           then Some(old(userProfile).value.(name := Some(name), bio := Some(bio)))
                           else None)
        && cached == (if old(userProfile).Some? then userProfile else old(cached))
        && nameError.None?
    {
      if pending.None? {
        return;
      }
      var (name, bio, at) := pending.value;
      isUpdating := false;
      updateEnabled := true;
      pending := None;
      if ok && currentUser.Some? && currentUser.value.uid in users {
        var uid := currentUser.value.uid;
        users := users[uid := users[uid].(name := Some(name), bio := Some(bio), updatedAt := at)];
        if userProfile.Some? {
          userProfile := Some(userProfile.value.(name := Some(name), bio := Some(bio)));
          cached := userProfile;
        }
        nameError := None;
      }
    }

    /** `createUserProfile`: with a user, builds the first profile (empty
        bio, both name fields the same) and writes it; the cache is filled
        only when the write succeeds. */
    method CreateUserProfile(now: Long, writeOk: bool)
      modifies this
      ensures isUpdating == old(isUpdating) && pending == old(pending) && updateEnabled == old(updateEnabled)
      ensures nameError == old(nameError)
      ensures var p := if currentUser.None? then None else FirstProfile(currentUser.value, now);
        if p.None? then
          userProfile == old(userProfile) && users == old(users) && cached == old(cached)
        else
          userProfile == p
          && users == (if writeOk then old(users)[currentUser.value.uid := p.value] else old(users))
          && cached == (if writeOk then p else old(cached))
    {
      if currentUser.None? {
        return;
      }
      var user := currentUser.value;
      var p := FirstProfile(user, now);
      if p.None? {
        return;
      }
      userProfile := p;
      if writeOk {
        users := users[user.uid := p.value];
        cached := p;
      }
    }
  }

  /** The profile `createUserProfile` builds for a user: the name from
      `NewProfileName` in both name fields, the user's e-mail, an empty bio,
      no picture, created and updated `now`; None when the name throws. */
  function FirstProfile(user: AuthUser, now: Long): (r: Option<UserProfile>)
    ensures r.Some? <==> NewProfileName(user.displayName, user.email).Some?
    ensures r.Some? ==>
      r.value.uid == Some(user.uid) && r.value.name == r.value.displayName == NewProfileName(user.displayName, user.email)
      && r.value.email == user.email && r.value.bio == Some("") && r.value.avatarUrl.None?
      && r.value.createdAt == r.value.updatedAt == now
  {
    var name := NewProfileName(user.displayName, user.email);
    if name.None? then None
    else Some(UserProfile(Some(user.uid), name, name, user.email, Some(""), None, now, now))
  }

  // ---------------------------------------------------------------------
  // The other side of the conflict

  /** Its `updateProfile`: an empty trimmed username is refused with this
      message; otherwise the `name` field is written. */
  function IncomingUsernameError(username: string): (r: Option<string>)
    ensures r.None? <==> username != ""
    ensures r.Some? ==> r.value == "You must enter a full name to save changes"
  {
    if username == "" then Some("You must enter a full name to save changes") else None
  }

  /** The resources its password dialog shows for each failed check. */
  datatype IncomingMessage = CurrentPasswordIsRequired | NewPasswordIsRequired | PasswordTooShort | PasswordsDoNotMatch

  /** Its password dialog: the same ordered checks as ProfileFragment's. */
  function IncomingPasswordError(current: string, newPassword: string, confirm: string): (r: Option<IncomingMessage>)
    ensures r.None? <==> current != "" && newPassword != "" && |newPassword| >= 6 && newPassword == confirm
    ensures r == Some(CurrentPasswordIsRequired) <==> current == ""
    ensures r == Some(NewPasswordIsRequired) <==> current != "" && newPassword == ""
    ensures r == Some(PasswordTooShort) <==> current != "" && 0 < |newPassword| < 6
    ensures r == Some(PasswordsDoNotMatch) <==> current != "" && |newPassword| >= 6 && newPassword != confirm
  {
    var check := ProfileScreen.PasswordDialogCheck(current, newPassword, confirm);
    if check.None? then None
    else match check.value
      case CurrentMissing => Some(CurrentPasswordIsRequired)
      case NewMissing => Some(NewPasswordIsRequired)
      case NewTooShort => Some(PasswordTooShort)
      case Mismatch => Some(PasswordsDoNotMatch)
  }
}
