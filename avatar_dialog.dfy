/** ChangeProfilePictureDialog.kt: the older profile-picture dialog, which
    keeps the picture in Firebase Storage. The storage is a map from key to
    bytes; the `users` collection is a map from uid to profile. The picked
    picture, the storage answers and whether each profile write succeeds
    are parameters. */
module AvatarDialog {
  import opened Common
  import opened Models
  import opened SupabaseStorage
  import AvatarFragment

  const CAMERA_REQUEST_CODE := 1001
  const GALLERY_REQUEST_CODE := 1002
  /** The cache file a camera bitmap is written to. */
  const TEMP_PICTURE := "temp_profile_picture.jpg"

  /** The storage key of a user's picture, used by the load, the upload and
      the removal alike. */
  function StorageKey(uid: string): (k: string)
    ensures |k| == |uid| + 21
    ensures k[..17] == "profile_pictures/" && k[|k| - 4..] == ".jpg"
    ensures k[17..|k| - 4] == uid
  {
    "profile_pictures/" + uid + ".jpg"
  }

  /** Different users have different keys. */
  lemma StorageKeyInjective(a: string, b: string)
    ensures StorageKey(a) == StorageKey(b) <==> a == b
  {
    if StorageKey(a) == StorageKey(b) {
      calc {
        a;
        StorageKey(a)[17..|StorageKey(a)| - 4];
        StorageKey(b)[17..|StorageKey(b)| - 4];
        b;
      }
    }
  }

  /** `bitmapToUri`: the URI of the cache file the bitmap is saved to. */
  function TempPictureUri(cacheDir: string): string
  {
    "file://" + cacheDir + "/" + TEMP_PICTURE
  }

  /** How the upload started by a new picture ends. */
  datatype UploadAnswers = UploadAnswers(
    contents: Bytes,             // the bytes behind the picture's URI
    putOk: bool,                 // whether `putFile` succeeds
    downloadUrl: Result<string>, // the download URL, or its failure
    writeOk: bool)               // whether the `avatarUrl` update gets through

  /** The profile write after an upload succeeds: it needs a user, a stored
      file, a download URL and a write to an existing document. */
  predicate AvatarSaved(user: Option<string>, users: map<string, UserProfile>, a: UploadAnswers)
  {
    user.Some? && a.putOk && a.downloadUrl.Success? && a.writeOk && user.value in users
  }

  /** The profiles after an upload: the user's `avatarUrl` becomes the
      download URL exactly when the write is saved. */
  function AfterUpload(user: Option<string>, users: map<string, UserProfile>, a: UploadAnswers)
    : (r: map<string, UserProfile>)
    ensures r.Keys == users.Keys
    ensures forall u :: u in users && Some(u) != user ==> r[u] == users[u]
    ensures AvatarSaved(user, users, a) ==> r[user.value] == users[user.value].(avatarUrl := Some(a.downloadUrl.value))
    ensures !AvatarSaved(user, users, a) ==> r == users
  {
    if AvatarSaved(user, users, a) then AvatarFragment.WithAvatar(users, user.value, a.downloadUrl.value, true)
    else users
  }

  /** Whether the removal's storage delete succeeds: a user, a call that
      gets through, and a stored picture (deleting a missing object fails). */
  predicate StorageDeleted(user: Option<string>, objects: map<string, Bytes>, reachable: bool)
  {
    user.Some? && reachable && StorageKey(user.value) in objects
  }

  /** The profiles after a removal: `avatarUrl` is cleared only when the
      storage delete succeeded and the clear goes through. */
  function AfterRemoval(user: Option<string>, users: map<string, UserProfile>, objects: map<string, Bytes>,
                       reachable: bool, clearOk: bool): (r: map<string, UserProfile>)
    ensures r.Keys == users.Keys
    ensures forall u :: u in users && Some(u) != user ==> r[u] == users[u]
    ensures !StorageDeleted(user, objects, reachable) ==> r == users
    ensures StorageDeleted(user, objects, reachable) && user.value in users ==>
      r[user.value] == if clearOk then users[user.value].(avatarUrl := Some("")) else users[user.value]
  {
    if StorageDeleted(user, objects, reachable) then AvatarFragment.WithAvatar(users, user.value, "", clearOk)
    else users
  }

  class ChangeAvatarDialog {
    const currentUser: Option<string>
    const cacheDir: string
    /** The Firebase Storage objects. */
    var objects: map<string, Bytes>
    /** The `users` collection. */
    var users: map<string, UserProfile>
    var selectedImageUri: Option<string>
    var preview: AvatarFragment.Preview
    var dismissed: bool

    constructor (currentUser: Option<string>, cacheDir: string, objects: map<string, Bytes>,
                 users: map<string, UserProfile>)
      ensures this.currentUser == currentUser && this.cacheDir == cacheDir
      ensures this.objects == objects && this.users == users
      ensures selectedImageUri.None? && preview == AvatarFragment.Placeholder && !dismissed
    {
      this.currentUser := currentUser;
      this.cacheDir := cacheDir;
      this.objects := objects;
      this.users := users;
      selectedImageUri := None;
      preview := AvatarFragment.Placeholder;
      dismissed := false;
    }

    /** `loadCurrentProfilePicture`: without a user nothing happens; else
        the stored picture's download URL, or the placeholder when it
        cannot be had. */
    method LoadCurrentProfilePicture(downloadUrl: Result<string>)
      modifies this
      ensures currentUser.None? ==> preview == old(preview)
      ensures currentUser.Some? ==>
        preview == if downloadUrl.Success? then AvatarFragment.Avatar(downloadUrl.value) else AvatarFragment.Placeholder
      ensures objects == old(objects) && users == old(users)
      ensures selectedImageUri == old(selectedImageUri) && dismissed == old(dismissed)
    {
      if currentUser.None? {
        return;
      }
      preview := if downloadUrl.Success? then AvatarFragment.Avatar(downloadUrl.value) else AvatarFragment.Placeholder;
    }

    /** `handleImageResult`: the camera code with a bitmap saves it to the
        cache file and uses that; the gallery code takes the returned URI
        (a null one too) and uses it when present; any other code, or
        missing data, uploads nothing. */
    method HandleImageResult(requestCode: int, bitmap: Option<Bytes>, dataUri: Option<string>, a: UploadAnswers)
      modifies this
      ensures requestCode == CAMERA_REQUEST_CODE && bitmap.Some? ==>
        selectedImageUri == Some(TempPictureUri(cacheDir)) && Uploaded(TempPictureUri(cacheDir), a)
      ensures requestCode == GALLERY_REQUEST_CODE ==> selectedImageUri == dataUri
      ensures requestCode == GALLERY_REQUEST_CODE && dataUri.Some? ==> Uploaded(dataUri.value, a)
      ensures !(requestCode == CAMERA_REQUEST_CODE && bitmap.Some?) &&
              !(requestCode == GALLERY_REQUEST_CODE && dataUri.Some?) ==>
        objects == old(objects) && users == old(users) && preview == old(preview) && dismissed == old(dismissed)
      ensures requestCode != GALLERY_REQUEST_CODE && !(requestCode == CAMERA_REQUEST_CODE && bitmap.Some?) ==>
        selectedImageUri == old(selectedImageUri)
    {
      if requestCode == CAMERA_REQUEST_CODE {
        if bitmap.Some? {
          selectedImageUri := Some(TempPictureUri(cacheDir));
          UpdateProfilePicturePreview(a);
        }
      } else if requestCode == GALLERY_REQUEST_CODE {
        selectedImageUri := dataUri;
        if selectedImageUri.Some? {
          UpdateProfilePicturePreview(a);
        }
      }
    }

    /** The state after the picture at `uri` was previewed and its upload
        ran to the end. */
    twostate predicate Uploaded(uri: string, a: UploadAnswers)
      reads this
    {
      preview == AvatarFragment.Picked(uri) &&
      objects == (if currentUser.Some? && a.putOk then old(objects)[StorageKey(currentUser.value) := a.contents]
                  else old(objects)) &&
      users == AfterUpload(currentUser, old(users), a) &&
      dismissed == (old(dismissed) || AvatarSaved(currentUser, old(users), a))
    }

    /** `updateProfilePicturePreview`: the selected picture is shown and
        uploaded; without one nothing happens. */
    method UpdateProfilePicturePreview(a: UploadAnswers)
      modifies this
      ensures old(selectedImageUri).Some? ==> Uploaded(old(selectedImageUri).value, a)
      ensures old(selectedImageUri).None? ==>
        objects == old(objects) && users == old(users) && preview == old(preview) && dismissed == old(dismissed)
      ensures selectedImageUri == old(selectedImageUri)
    {
      if selectedImageUri.Some? {
        preview := AvatarFragment.Picked(selectedImageUri.value);
        UploadProfilePicture(a);
      }
    }

    /** `uploadProfilePicture`: nothing without a user; the file is put at
        the user's key, and only after that succeeds and the download URL
        arrives is the profile written. A failed put writes nothing; a
        failed URL request is heard by no one. */
    method UploadProfilePicture(a: UploadAnswers)
      modifies this
      ensures objects == if currentUser.Some? && a.putOk then old(objects)[StorageKey(currentUser.value) := a.contents]
                         else old(objects)
      ensures users == AfterUpload(currentUser, old(users), a)
      ensures dismissed == (old(dismissed) || AvatarSaved(currentUser, old(users), a))
      ensures preview == old(preview) && selectedImageUri == old(selectedImageUri)
    {
      if currentUser.None? {
        return;
      }
      if !a.putOk {
        return;
      }
      objects := objects[StorageKey(currentUser.value) := a.contents];
      if a.downloadUrl.Success? {
        UpdateUserProfilePicture(a.downloadUrl.value, a.writeOk);
      }
    }

    /** `updateUserProfilePicture`: the `avatarUrl` update; the dialog
        closes only once it succeeds. */
    method UpdateUserProfilePicture(imageUrl: string, writeOk: bool)
      modifies this
      ensures currentUser.None? ==> users == old(users) && dismissed == old(dismissed)
      ensures currentUser.Some? ==>
        var saved := writeOk && currentUser.value in old(users);
        users == AvatarFragment.WithAvatar(old(users), currentUser.value, imageUrl, saved) &&
        dismissed == (old(dismissed) || saved)
      ensures objects == old(objects) && preview == old(preview) && selectedImageUri == old(selectedImageUri)
    {
      if currentUser.None? {
        return;
      }
      var uid := currentUser.value;
      if writeOk && uid in users {
        users := users[uid := users[uid].(avatarUrl := Some(imageUrl))];
        dismissed := true;
      }
    }

    /** `removeProfilePicture`: the stored picture is deleted first; only
        after that succeeds is `avatarUrl` cleared, and only a successful
        clear shows the placeholder and closes the dialog. A failed delete
        leaves the profile as it was. */
    method RemoveProfilePicture(reachable: bool, clearOk: bool)
      modifies this
      ensures objects == if StorageDeleted(currentUser, old(objects), reachable)
                         then old(objects) - {StorageKey(currentUser.value)} else old(objects)
      ensures users == AfterRemoval(currentUser, old(users), old(objects), reachable, clearOk)
      ensures var cleared := StorageDeleted(currentUser, old(objects), reachable) && clearOk && currentUser.value in old(users);
        dismissed == (old(dismissed) || cleared) &&
        preview == (if cleared then AvatarFragment.Placeholder else old(preview))
      ensures selectedImageUri == old(selectedImageUri)
    {
      if currentUser.None? {
        return;
      }
      var uid := currentUser.value;
      if !(reachable && StorageKey(uid) in objects) {
        return;
      }
      objects := objects - {StorageKey(uid)};
      if clearOk && uid in users {
        users := users[uid := users[uid].(avatarUrl := Some(""))];
        preview := AvatarFragment.Placeholder;
        dismissed := true;
      }
    }
  }

  /** The two dialogs order a removal oppositely. When the profile clear
      would go through but the storage delete fails, the fragment has
      already cleared `avatarUrl` (it clears first and swallows the failed
      delete), while this dialog leaves the profile untouched. */
  lemma RemovalOrdersDiffer(uid: string, users: map<string, UserProfile>, objects: map<string, Bytes>,
                            reachable: bool)
    requires uid in users && !StorageDeleted(Some(uid), objects, reachable)
    ensures AvatarFragment.AfterRemoval(Some(uid), users, true)[uid].avatarUrl == Some("")
    ensures AfterRemoval(Some(uid), users, objects, reachable, true) == users
  {
  }

  /** A failed upload never writes the profile, whatever the other answers. */
  lemma FailedPutWritesNothing(user: Option<string>, users: map<string, UserProfile>, a: UploadAnswers)
    requires !a.putOk || a.downloadUrl.Failure?
    ensures AfterUpload(user, users, a) == users
  {
  }
}
