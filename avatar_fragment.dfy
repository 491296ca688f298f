/** ChangeProfilePictureDialogFragment.kt: changing or removing the signed-in
    user's profile picture, stored through the Supabase service. The `users`
    collection is a map from uid to profile; a write to a missing document
    fails. The camera permission, the activity results, the file size, the
    storage answers and whether each profile write succeeds are
    parameters. */
module AvatarFragment {
  import opened Common
  import opened Models
  import opened SupabaseStorage

  /** `Activity.RESULT_OK`. */
  const RESULT_OK := -1
  /** A captured file smaller than this is probably a thumbnail. */
  const SMALL_FILE_BYTES := 10000

  /** What the round picture shows: the placeholder, the stored avatar or a
      just picked image. */
  datatype Preview = Placeholder | Avatar(url: string) | Picked(uri: string)

  /** The picture's border: none around the placeholder, 4 around an image. */
  function BorderWidth(p: Preview): (w: int)
    ensures w == 0 <==> p.Placeholder?
    ensures w == 0 || w == 4
  {
    if p.Placeholder? then 0 else 4
  }

  /** `loadCurrentProfilePicture`: the stored `avatarUrl` when the read
      succeeds and the URL is neither null nor empty, else the placeholder
      (also without a user). */
  function LoadedPreview(signedIn: bool, answer: Result<Option<string>>): (p: Preview)
    ensures p.Avatar? <==> signedIn && answer.Success? && answer.value.Some? && answer.value.value != []
    ensures p.Avatar? ==> p.url == answer.value.value
    ensures !p.Picked?
  {
    if signedIn && answer.Success? && answer.value.Some? && answer.value.value != [] then Avatar(answer.value.value)
    else Placeholder
  }

  /** An `update("avatarUrl", url)` on `users/uid`: it succeeds when the call
      gets through and the document exists, and then changes that one
      field of that one profile. */
  function WithAvatar(users: map<string, UserProfile>, uid: string, url: string, ok: bool)
    : (r: map<string, UserProfile>)
    ensures r.Keys == users.Keys
    ensures forall u :: u in users && u != uid ==> r[u] == users[u]
    ensures uid in users ==> r[uid] == (if ok then users[uid].(avatarUrl := Some(url)) else users[uid])
  {
    if ok && uid in users then users[uid := users[uid].(avatarUrl := Some(url))] else users
  }

  /** How the upload started by a new picture ends. */
  datatype UploadAnswers = UploadAnswers(
    picture: Picture,    // what the picture's stream gives
    reachable: bool,     // whether the storage upload gets through
    signed: Result<string>,  // the signed path, or the exception
    writeOk: bool)       // whether the `avatarUrl` update gets through

  /** Whether the profile write after an upload succeeds: it needs a user,
      a signed URL and a write that goes through to an existing document. */
  predicate AvatarSaved(user: Option<string>, users: map<string, UserProfile>, a: UploadAnswers)
  {
    user.Some? && a.picture.Contents? && a.reachable && a.signed.Success? && a.writeOk && user.value in users
  }

  /** The profiles after an upload: the user's `avatarUrl` becomes the
      signed URL exactly when the write is saved; nothing else changes. */
  function AfterUpload(user: Option<string>, users: map<string, UserProfile>, supabaseUrl: string,
                       a: UploadAnswers): (r: map<string, UserProfile>)
    ensures r.Keys == users.Keys
    ensures forall u :: u in users && Some(u) != user ==> r[u] == users[u]
    ensures AvatarSaved(user, users, a) ==>
      r[user.value] == users[user.value].(avatarUrl := Some(SignedUrl(supabaseUrl, a.signed.value)))
    ensures !AvatarSaved(user, users, a) ==> r == users
  {
    if AvatarSaved(user, users, a) then WithAvatar(users, user.value, SignedUrl(supabaseUrl, a.signed.value), true)
    else users
  }

  /** The profiles after a removal: the user's `avatarUrl` is cleared to ""
      when the clear goes through; nothing else changes. */
  function AfterRemoval(user: Option<string>, users: map<string, UserProfile>, clearOk: bool)
    : (r: map<string, UserProfile>)
    ensures r.Keys == users.Keys
    ensures forall u :: u in users && Some(u) != user ==> r[u] == users[u]
    ensures user.Some? && user.value in users ==>
      r[user.value] == if clearOk then users[user.value].(avatarUrl := Some("")) else users[user.value]
  {
    if user.Some? then WithAvatar(users, user.value, "", clearOk) else users
  }

  class ChangeAvatarFragment {
    const currentUser: Option<string>
    const service: SupabaseStorageService
    /** The `users` collection. */
    var users: map<string, UserProfile>
    var hasListener: bool
    /** How many times the change listener has run. */
    var notified: nat
    var dismissed: bool
    var selectedImageUri: Option<string>
    var cameraImageUri: Option<string>
    var preview: Preview
    /** How many times the camera and the permission request were launched. */
    var cameraLaunches: nat
    var permissionRequests: nat
    /** How many small-file warnings were logged. */
    var smallFileWarnings: nat

    constructor (currentUser: Option<string>, service: SupabaseStorageService, users: map<string, UserProfile>)
      ensures this.currentUser == currentUser && this.service == service && this.users == users
      ensures !hasListener && notified == 0 && !dismissed
      ensures selectedImageUri.None? && cameraImageUri.None? && preview == Placeholder
      ensures cameraLaunches == 0 && permissionRequests == 0 && smallFileWarnings == 0
    {
      this.currentUser := currentUser;
      this.service := service;
      this.users := users;
      hasListener := false;
      notified := 0;
      dismissed := false;
      selectedImageUri := None;
      cameraImageUri := None;
      preview := Placeholder;
      cameraLaunches := 0;
      permissionRequests := 0;
      smallFileWarnings := 0;
    }

    method SetOnProfilePictureChangedListener()
      modifies this
      ensures hasListener
      ensures users == old(users) && notified == old(notified) && dismissed == old(dismissed)
      ensures preview == old(preview) && selectedImageUri == old(selectedImageUri)
    {
      hasListener := true;
    }

    /** `loadCurrentProfilePicture` with the profile read's answer. */
    method LoadCurrentProfilePicture(answer: Result<Option<string>>)
      modifies this
      ensures preview == LoadedPreview(currentUser.Some?, answer)
      ensures users == old(users) && notified == old(notified) && dismissed == old(dismissed)
      ensures selectedImageUri == old(selectedImageUri)
    {
      preview := LoadedPreview(currentUser.Some?, answer);
    }

    /** `openCamera`: the new file's URI is remembered and the camera
        launched. */
    method OpenCamera(fileUri: string)
      modifies this
      ensures cameraImageUri == Some(fileUri) && cameraLaunches == old(cameraLaunches) + 1
      ensures permissionRequests == old(permissionRequests)
      ensures users == old(users) && preview == old(preview) && selectedImageUri == old(selectedImageUri)
    {
      cameraImageUri := Some(fileUri);
      cameraLaunches := cameraLaunches + 1;
    }

    /** The Take Photo button: the camera opens at once only with the
        permission; otherwise the permission is requested (with a rationale
        toast when the system asks for one). */
    method CheckCameraPermissionAndOpenCamera(granted: bool, fileUri: string)
      modifies this
      ensures cameraLaunches == old(cameraLaunches) + (if granted then 1 else 0)
      ensures permissionRequests == old(permissionRequests) + (if granted then 0 else 1)
      ensures cameraImageUri == if granted then Some(fileUri) else old(cameraImageUri)
      ensures users == old(users) && preview == old(preview) && selectedImageUri == old(selectedImageUri)
    {
      if granted {
        OpenCamera(fileUri);
      } else {
        permissionRequests := permissionRequests + 1;
      }
    }

    /** The permission request's answer: a grant opens the camera, a denial
        only shows a toast. */
    method OnCameraPermissionResult(isGranted: bool, fileUri: string)
      modifies this
      ensures cameraLaunches == old(cameraLaunches) + (if isGranted then 1 else 0)
      ensures permissionRequests == old(permissionRequests)
      ensures cameraImageUri == if isGranted then Some(fileUri) else old(cameraImageUri)
      ensures users == old(users) && preview == old(preview) && selectedImageUri == old(selectedImageUri)
    {
      if isGranted {
        OpenCamera(fileUri);
      }
    }

    /** The camera's result. With RESULT_OK and a remembered file, a size
        under 10,000 bytes is logged, and the picture is previewed and
        uploaded whatever its size; anything else only shows a toast.
        `fileSize` is None when the file cannot be measured. */
    method OnCameraResult(resultCode: int, fileSize: Option<int>, a: UploadAnswers)
      modifies this, service.storage
      ensures resultCode == RESULT_OK && old(cameraImageUri).Some? ==>
        selectedImageUri == old(cameraImageUri) &&
        preview == Picked(old(cameraImageUri).value) &&
        service.storage.objects == (if currentUser.Some? && a.picture.Contents? && a.reachable
                                    then old(service.storage.objects)[ProfilePath(currentUser.value) := a.picture.bytes]
                                    else old(service.storage.objects)) &&
        smallFileWarnings == old(smallFileWarnings) +
          (if fileSize.Some? && fileSize.value < SMALL_FILE_BYTES then 1 else 0) &&
        users == AfterUpload(currentUser, old(users), service.supabaseUrl, a) &&
        notified == old(notified) + (if AvatarSaved(currentUser, old(users), a) && hasListener then 1 else 0) &&
        dismissed == (old(dismissed) || AvatarSaved(currentUser, old(users), a))
      ensures !(resultCode == RESULT_OK && old(cameraImageUri).Some?) ==>
        selectedImageUri == old(selectedImageUri) && preview == old(preview) && users == old(users) &&
        notified == old(notified) && dismissed == old(dismissed) && smallFileWarnings == old(smallFileWarnings) &&
        service.storage.objects == old(service.storage.objects)
      ensures cameraImageUri == old(cameraImageUri) && hasListener == old(hasListener)
    {
      if resultCode == RESULT_OK && cameraImageUri.Some? {
        if fileSize.Some? && fileSize.value < SMALL_FILE_BYTES {
          smallFileWarnings := smallFileWarnings + 1;
        }
        selectedImageUri := cameraImageUri;
        UpdateProfilePicturePreview(a);
      }
    }

    /** The gallery's result. With RESULT_OK the returned URI replaces the
        selection (a null one too), and a present one is previewed and
        uploaded; other results change nothing. */
    method OnGalleryResult(resultCode: int, data: Option<string>, a: UploadAnswers)
      modifies this, service.storage
      ensures resultCode == RESULT_OK ==> selectedImageUri == data
      ensures resultCode == RESULT_OK && data.Some? ==>
        preview == Picked(data.value) &&
        service.storage.objects == (if currentUser.Some? && a.picture.Contents? && a.reachable
                                    then old(service.storage.objects)[ProfilePath(currentUser.value) := a.picture.bytes]
                                    else old(service.storage.objects)) &&
        users == AfterUpload(currentUser, old(users), service.supabaseUrl, a) &&
        notified == old(notified) + (if AvatarSaved(currentUser, old(users), a) && hasListener then 1 else 0) &&
        dismissed == (old(dismissed) || AvatarSaved(currentUser, old(users), a))
      ensures !(resultCode == RESULT_OK && data.Some?) ==>
        preview == old(preview) && users == old(users) && notified == old(notified) &&
        dismissed == old(dismissed) && service.storage.objects == old(service.storage.objects)
      ensures resultCode != RESULT_OK ==> selectedImageUri == old(selectedImageUri)
      ensures cameraImageUri == old(cameraImageUri) && hasListener == old(hasListener)
      ensures smallFileWarnings == old(smallFileWarnings)
    {
      if resultCode == RESULT_OK {
        selectedImageUri := data;
        if selectedImageUri.Some? {
          UpdateProfilePicturePreview(a);
        }
      }
    }

    /** `updateProfilePicturePreview`: the selected picture is shown and
        uploaded; without one nothing happens. */
    method UpdateProfilePicturePreview(a: UploadAnswers)
      modifies this, service.storage
      ensures old(selectedImageUri).Some? ==>
        preview == Picked(old(selectedImageUri).value) &&
        service.storage.objects == (if currentUser.Some? && a.picture.Contents? && a.reachable
                                    then old(service.storage.objects)[ProfilePath(currentUser.value) := a.picture.bytes]
                                    else old(service.storage.objects)) &&
        users == AfterUpload(currentUser, old(users), service.supabaseUrl, a) &&
        notified == old(notified) + (if AvatarSaved(currentUser, old(users), a) && hasListener then 1 else 0) &&
        dismissed == (old(dismissed) || AvatarSaved(currentUser, old(users), a))
      ensures old(selectedImageUri).None? ==>
        preview == old(preview) && users == old(users) && notified == old(notified) &&
        dismissed == old(dismissed) && service.storage.objects == old(service.storage.objects)
      ensures selectedImageUri == old(selectedImageUri) && cameraImageUri == old(cameraImageUri)
      ensures hasListener == old(hasListener) && smallFileWarnings == old(smallFileWarnings)
    {
      if selectedImageUri.Some? {
        preview := Picked(selectedImageUri.value);
        UploadProfilePicture(a);
      }
    }

    /** `uploadProfilePicture`: nothing without a user; otherwise the
        service uploads, and only a signed URL leads to the profile write. */
    method UploadProfilePicture(a: UploadAnswers)
      modifies this, service.storage
      ensures currentUser.None? ==> service.storage.objects == old(service.storage.objects)
      ensures currentUser.Some? ==>
        service.storage.objects ==
          if a.picture.Contents? && a.reachable
          then old(service.storage.objects)[ProfilePath(currentUser.value) := a.picture.bytes]
          else old(service.storage.objects)
      ensures users == AfterUpload(currentUser, old(users), service.supabaseUrl, a)
      ensures notified == old(notified) + (if AvatarSaved(currentUser, old(users), a) && hasListener then 1 else 0)
      ensures dismissed == (old(dismissed) || AvatarSaved(currentUser, old(users), a))
      ensures preview == old(preview) && selectedImageUri == old(selectedImageUri)
      ensures cameraImageUri == old(cameraImageUri) && hasListener == old(hasListener)
      ensures smallFileWarnings == old(smallFileWarnings)
    {
      if currentUser.None? {
        return;
      }
      var signedUrl := service.UploadProfilePicture(currentUser.value, a.picture, a.reachable, a.signed);
      if signedUrl.Some? {
        UpdateUserProfilePicture(signedUrl.value, a.writeOk);
      }
    }

    /** `updateUserProfilePicture`: the `avatarUrl` update; once it
        succeeds the listener runs and the dialog closes, a failure only
        shows a toast. */
    method UpdateUserProfilePicture(imageUrl: string, writeOk: bool)
      modifies this
      ensures currentUser.None? ==> users == old(users) && notified == old(notified) && dismissed == old(dismissed)
      ensures currentUser.Some? ==>
        var saved := writeOk && currentUser.value in old(users);
        users == WithAvatar(old(users), currentUser.value, imageUrl, saved) &&
        notified == old(notified) + (if saved && hasListener then 1 else 0) &&
        dismissed == (old(dismissed) || saved)
      ensures preview == old(preview) && selectedImageUri == old(selectedImageUri)
      ensures cameraImageUri == old(cameraImageUri) && hasListener == old(hasListener)
      ensures smallFileWarnings == old(smallFileWarnings)
    {
      if currentUser.None? {
        return;
      }
      var uid := currentUser.value;
      if writeOk && uid in users {
        users := users[uid := users[uid].(avatarUrl := Some(imageUrl))];
        if hasListener {
          notified := notified + 1;
        }
        dismissed := true;
      }
    }

    /** `removeProfilePicture` (after the confirmation): `avatarUrl` is set
        to "" first; only once that succeeds is the stored picture deleted,
        and a failed delete is swallowed: the placeholder, the listener and
        the closing follow either way. A failed clear deletes nothing. */
    method RemoveProfilePicture(clearOk: bool, deleteReachable: bool)
      modifies this, service.storage
      ensures currentUser.None? ==>
        users == old(users) && service.storage.objects == old(service.storage.objects) &&
        notified == old(notified) && dismissed == old(dismissed) && preview == old(preview)
      ensures currentUser.Some? ==>
        var cleared := clearOk && currentUser.value in old(users);
        users == AfterRemoval(currentUser, old(users), clearOk) &&
        service.storage.objects ==
          (if cleared && deleteReachable then old(service.storage.objects) - {ProfilePath(currentUser.value)}
           else old(service.storage.objects)) &&
        notified == old(notified) + (if cleared && hasListener then 1 else 0) &&
        dismissed == (old(dismissed) || cleared) &&
        preview == (if cleared then Placeholder else old(preview))
      ensures selectedImageUri == old(selectedImageUri) && cameraImageUri == old(cameraImageUri)
      ensures hasListener == old(hasListener) && smallFileWarnings == old(smallFileWarnings)
    {
      if currentUser.None? {
        return;
      }
      var uid := currentUser.value;
      if clearOk && uid in users {
        users := users[uid := users[uid].(avatarUrl := Some(""))];
        var _ := service.DeleteProfilePicture(uid, deleteReachable);
        preview := Placeholder;
        if hasListener {
          notified := notified + 1;
        }
        dismissed := true;
      }
    }
  }

  /** The profile changes only through a signed URL: without a stream, a
      completed upload or a signed path, no profile is touched. */
  lemma NoUrlNoWrite(user: Option<string>, users: map<string, UserProfile>, supabaseUrl: string, a: UploadAnswers)
    requires !a.picture.Contents? || !a.reachable || a.signed.Failure?
    ensures AfterUpload(user, users, supabaseUrl, a) == users
  {
  }

  /** A saved avatar is the full signed URL, under the user's own profile. */
  lemma SavedAvatarIsSignedUrl(users: map<string, UserProfile>, uid: string, supabaseUrl: string, a: UploadAnswers)
    requires AvatarSaved(Some(uid), users, a)
    ensures AfterUpload(Some(uid), users, supabaseUrl, a)[uid].avatarUrl == Some(supabaseUrl + STORAGE_API + a.signed.value)
  {
  }
}
