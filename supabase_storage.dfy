/** SupabaseStorageService.kt: a user's profile picture in a Supabase
    storage bucket. The bucket is a map from object path to bytes, plus the
    signed-URL requests it has received; whether each remote call throws,
    and the signed path it answers with, are parameters. The project URL
    is the configured one ("" when the key is missing). */
module SupabaseStorage {
  import opened Common

  /** The bucket every call goes to. */
  const BUCKET := "palate"
  /** The lifetime of a signed URL, as an ISO 8601 duration: 365 days. */
  const SIGNED_URL_LIFETIME := "P365D"
  /** What goes between the project URL and the signed path. */
  const STORAGE_API := "/storage/v1/"

  type Bytes = seq<bv8>

  // ---------------------------------------------------------------------
  // Paths and URLs

  /** The one object path a user's picture is stored under. */
  function ProfilePath(uid: string): (p: string)
    ensures |p| == |uid| + 8
    ensures p[..4] == "pfp/" && p[|p| - 4..] == ".jpg"
    ensures p[4..|p| - 4] == uid
  {
    "pfp/" + uid + ".jpg"
  }

  /** Two users never share a path, and a user always gets the same one. */
  lemma ProfilePathInjective(a: string, b: string)
    ensures ProfilePath(a) == ProfilePath(b) <==> a == b
  {
    if ProfilePath(a) == ProfilePath(b) {
      calc {
        a;
        ProfilePath(a)[4..|ProfilePath(a)| - 4];
        ProfilePath(b)[4..|ProfilePath(b)| - 4];
        b;
      }
    }
  }

  /** The URL handed back: the project URL, the storage API prefix and the
      signed path, in that order. */
  function SignedUrl(supabaseUrl: string, signedPath: string): (u: string)
    ensures |u| == |supabaseUrl| + |STORAGE_API| + |signedPath|
    ensures u[..|supabaseUrl|] == supabaseUrl
    ensures u[|supabaseUrl|..|supabaseUrl| + |STORAGE_API|] == STORAGE_API
    ensures u[|supabaseUrl| + |STORAGE_API|..] == signedPath
  {
    supabaseUrl + STORAGE_API + signedPath
  }

  /** The signed path can be read back from the URL: for one project URL,
      different signed paths give different URLs. */
  lemma SignedUrlInjective(supabaseUrl: string, p: string, q: string)
    ensures SignedUrl(supabaseUrl, p) == SignedUrl(supabaseUrl, q) <==> p == q
  {
    if SignedUrl(supabaseUrl, p) == SignedUrl(supabaseUrl, q) {
      var n := |supabaseUrl| + |STORAGE_API|;
      calc {
        p;
        SignedUrl(supabaseUrl, p)[n..];
        SignedUrl(supabaseUrl, q)[n..];
        q;
      }
    }
  }

  // ---------------------------------------------------------------------
  // The bucket

  /** What `openInputStream` and `readBytes` give: no stream (the resolver
      answered null), a read that threw, or the picture's bytes. */
  datatype Picture = NoStream | Unreadable | Contents(bytes: Bytes)

  /** A signed-URL request: the object path and the lifetime asked for. */
  datatype SignRequest = SignRequest(path: string, expiresIn: string)

  class Bucket {
    var objects: map<string, Bytes>
    var signRequests: seq<SignRequest>

    constructor (objects: map<string, Bytes>)
      ensures this.objects == objects && signRequests == []
    {
      this.objects := objects;
      signRequests := [];
    }

    /** `upload`: with `upsert` an existing object is replaced, without it
        an existing path is refused. `reachable` says whether the call gets
        through. */
    method Upload(path: string, data: Bytes, upsert: bool, reachable: bool) returns (ok: bool)
      modifies this
      ensures ok <==> reachable && (upsert || path !in old(objects))
      ensures objects == if ok then old(objects)[path := data] else old(objects)
      ensures signRequests == old(signRequests)
    {
      ok := reachable && (upsert || path !in objects);
      if ok {
        objects := objects[path := data];
      }
    }

    /** `createSignedUrl`: the request is received; `answer` is the signed
        path, or the exception. */
    method CreateSignedUrl(path: string, expiresIn: string, answer: Result<string>) returns (r: Result<string>)
      modifies this
      ensures r == answer
      ensures signRequests == old(signRequests) + [SignRequest(path, expiresIn)]
      ensures objects == old(objects)
    {
      signRequests := signRequests + [SignRequest(path, expiresIn)];
      r := answer;
    }

    /** `delete`: removing a path that holds nothing is not an error. */
    method Delete(path: string, reachable: bool) returns (ok: bool)
      modifies this
      ensures ok == reachable
      ensures objects == if ok then old(objects) - {path} else old(objects)
      ensures signRequests == old(signRequests)
    {
      ok := reachable;
      if ok {
        objects := objects - {path};
      }
    }
  }

  // ---------------------------------------------------------------------
  // The service

  class SupabaseStorageService {
    const supabaseUrl: string
    const storage: Bucket

    constructor (supabaseUrl: string, storage: Bucket)
      ensures this.supabaseUrl == supabaseUrl && this.storage == storage
    {
      this.supabaseUrl := supabaseUrl;
      this.storage := storage;
    }

    /** `uploadProfilePicture`: no stream gives null before any upload; the
        bytes are put at the user's path with upsert; only an upload that
        returned asks for a signed URL, for 365 days; the answer is the full
        URL, and anything that throws gives null. */
    method UploadProfilePicture(uid: string, picture: Picture, reachable: bool, signed: Result<string>)
      returns (url: Option<string>)
      modifies storage
      ensures url.Some? <==> picture.Contents? && reachable && signed.Success?
      ensures url.Some? ==> url.value == SignedUrl(supabaseUrl, signed.value)
      ensures storage.objects ==
        if picture.Contents? && reachable then old(storage.objects)[ProfilePath(uid) := picture.bytes]
        else old(storage.objects)
      ensures storage.signRequests ==
        if picture.Contents? && reachable then old(storage.signRequests) + [SignRequest(ProfilePath(uid), SIGNED_URL_LIFETIME)]
        else old(storage.signRequests)
    {
      if !picture.Contents? {
        return None;
      }
      var path := ProfilePath(uid);
      var uploaded := storage.Upload(path, picture.bytes, true, reachable);
      if !uploaded {
        return None;
      }
      var signedPath := storage.CreateSignedUrl(path, SIGNED_URL_LIFETIME, signed);
      if signedPath.Failure? {
        return None;
      }
      url := Some(SignedUrl(supabaseUrl, signedPath.value));
    }

    /** `deleteProfilePicture`: true exactly when the delete did not throw. */
    method DeleteProfilePicture(uid: string, reachable: bool) returns (deleted: bool)
      modifies storage
      ensures deleted == reachable
      ensures storage.objects == if deleted then old(storage.objects) - {ProfilePath(uid)} else old(storage.objects)
      ensures storage.signRequests == old(storage.signRequests)
    {
      deleted := storage.Delete(ProfilePath(uid), reachable);
    }
  }

  /** A successful upload leaves exactly one object for the user: the
      bucket's paths grow by the user's path at most, whatever was stored
      there before, and it holds the latest bytes. */
  lemma ReuploadOverwrites(objects: map<string, Bytes>, uid: string, first: Bytes, second: Bytes)
    ensures objects[ProfilePath(uid) := first][ProfilePath(uid) := second] == objects[ProfilePath(uid) := second]
    ensures objects[ProfilePath(uid) := second].Keys == objects.Keys + {ProfilePath(uid)}
  {
  }

  /** Another user's picture is never touched by an upload or a delete. */
  lemma OtherUsersUntouched(objects: map<string, Bytes>, uid: string, other: string, data: Bytes)
    requires other != uid
    ensures ProfilePath(other) in objects ==>
      ProfilePath(other) in objects[ProfilePath(uid) := data] &&
      objects[ProfilePath(uid) := data][ProfilePath(other)] == objects[ProfilePath(other)]
    ensures ProfilePath(other) in objects ==>
      ProfilePath(other) in objects - {ProfilePath(uid)} &&
      (objects - {ProfilePath(uid)})[ProfilePath(other)] == objects[ProfilePath(other)]
  {
    ProfilePathInjective(uid, other);
  }
}
