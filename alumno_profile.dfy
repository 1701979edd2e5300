/** The student's profile page: it loads the student's record from the
    server using the id of the stored record, lets the student edit the
    names, the email and the photo, and on save writes the merged record
    back to the server and to the browser store. */
module AlumnoProfile {
  import opened JsText
  import opened Storage
  import opened Paging
  import Navbar

  /** The reply to GET /users/{id}: a rejected fetch or unreadable body
      (with its message), a non-OK status, or the record under `data`. */
  datatype ProfileReply = Thrown(message: string) | HttpError(status: int) | Loaded(u: UserRecord)

  /** The reply to POST /upload: the stored image's URL, or a failure. */
  datatype UploadReply = Uploaded(url: string) | UploadFailed

  /** Body of PUT /users/{id}. */
  datatype ProfileUpdate = ProfileUpdate(firstName: string, lastName: string, email: string, avatarUrl: Option<string>)

  const NoSessionUser := "No se encontró usuario en sesión."
  const NoUserId := "No se encontró el ID del usuario."
  const NotUpdated := "No se pudo actualizar el perfil."
  const SaveFailed := "Error guardando el perfil."
  const Updated := "Perfil actualizado correctamente"

  /** `if (!userId)` fails for an absent id and for 0. */
  predicate HasId(u: UserRecord) {
    u.id.Some? && u.id.value != 0
  }

  /** The image source of a stored avatar URL: an absolute "http…" URL is
      used as is, a server path gets the backend's base URL in front. */
  function AvatarSource(baseUrl: string, url: string): (r: string)
    ensures StartsWith(url, "http") ==> r == url
    ensures !StartsWith(url, "http") ==> r == baseUrl + url && StartsWith(r, baseUrl)
  {
    if StartsWith(url, "http") then url
    else
      assert (baseUrl + url)[..|baseUrl|] == baseUrl;
      baseUrl + url
  }

  /** With an "http…" base URL every source is absolute, so resolving it
      again changes nothing. */
  lemma AvatarSourceStable(baseUrl: string, url: string)
    requires StartsWith(baseUrl, "http")
    ensures StartsWith(AvatarSource(baseUrl, url), "http")
    ensures AvatarSource(baseUrl, AvatarSource(baseUrl, url)) == AvatarSource(baseUrl, url)
  {
    var r := AvatarSource(baseUrl, url);
    if !StartsWith(url, "http") {
      assert r[..4] == baseUrl[..4];
    }
  }

  /** `user.avatar_url ?? null`, replaced by the uploaded URL when a new
      file was uploaded. */
  function SavedAvatar(existing: Option<string>, uploaded: Option<string>): (r: Option<string>)
    ensures uploaded.Some? ==> r == uploaded
    ensures uploaded.None? ==> r == existing
  {
    if uploaded.Some? then uploaded else existing
  }

  /** `{...user, first_name, last_name, email, avatar_url}`: the record with
      those four fields replaced and every other field kept. */
  function Merge(u: UserRecord, update: ProfileUpdate): (r: UserRecord)
    ensures r.id == u.id && r.username == u.username && r.dni == u.dni && r.userType == u.userType
    ensures r.firstName == Some(update.firstName) && r.lastName == Some(update.lastName)
    ensures r.email == Some(update.email) && r.avatarUrl == update.avatarUrl
  {
    u.(firstName := Some(update.firstName), lastName := Some(update.lastName),
       email := Some(update.email), avatarUrl := update.avatarUrl)
  }

  /** Saving the form exactly as it was loaded, without a new photo, gives
      back the loaded record, as long as it had the three text fields. */
  lemma UnchangedFormSavesSameRecord(u: UserRecord)
    requires u.firstName.Some? && u.lastName.Some? && u.email.Some?
    ensures Merge(u, ProfileUpdate(OrEmpty(u.firstName), OrEmpty(u.lastName), OrEmpty(u.email),
                                   SavedAvatar(u.avatarUrl, None))) == u
  {
  }

  /** Saving twice with the same form gives the same record as saving once. */
  lemma MergeIdempotent(u: UserRecord, update: ProfileUpdate)
    ensures Merge(Merge(u, update), update) == Merge(u, update)
  {
  }

  /** After a save with a first name, the navigation bar, which reads the
      stored record, shows the new names. */
  lemma SavedNameReachesNavbar(store: Store, u: UserRecord, update: ProfileUpdate)
    requires update.firstName != ""
    ensures Navbar.UserName(store[UserKey := Encode(Merge(u, update))]) == JoinNames(update.firstName, update.lastName)
  {
    ParseStoredUserAfterWrite(store, Merge(u, update));
  }

  class AlumnoProfileView {
    var user: Option<UserRecord>
    var firstName: string
    var lastName: string
    var email: string
    /** A file has been chosen for upload. */
    var avatarChosen: bool
    var avatarPreview: Option<string>
    var loading: bool
    var saving: bool
    var error: Option<string>

    constructor ()
      ensures user.None? && firstName == "" && lastName == "" && email == ""
      ensures !avatarChosen && avatarPreview.None? && loading && !saving && error.None?
    {
      user := None;
      firstName, lastName, email := "", "", "";
      avatarChosen := false;
      avatarPreview := None;
      loading, saving := true, false;
      error := None;
    }

    /** loadProfile up to the fetch: it needs a stored record (malformed
        text throws and is reported with the parser's message) with a
        non-zero id; it returns the id it asks for. */
    method BeginLoad(store: Store, parseMessage: string) returns (fetchId: Option<int>)
      modifies this
      ensures user == old(user) && firstName == old(firstName) && lastName == old(lastName)
      ensures email == old(email) && avatarChosen == old(avatarChosen) && avatarPreview == old(avatarPreview)
      ensures saving == old(saving)
      ensures !Present(GetItem(store, UserKey)) ==> fetchId.None? && error == Some(NoSessionUser) && !loading
      ensures Present(GetItem(store, UserKey)) && ParseStoredUser(store).None? ==>
        fetchId.None? && error == Some(parseMessage) && !loading
      ensures ParseStoredUser(store).Some? && !HasId(ParseStoredUser(store).value) ==>
        fetchId.None? && error == Some(NoUserId) && !loading
      ensures ParseStoredUser(store).Some? && HasId(ParseStoredUser(store).value) ==>
        fetchId == ParseStoredUser(store).value.id && error.None? && loading == old(loading)
    {
      error := None;
      var raw := GetItem(store, UserKey);
      if !Present(raw) {
        error := Some(NoSessionUser);
        loading := false;
        return None;
      }
      var parsed := ParseStoredUser(store);
      if parsed.None? {
        error := Some(parseMessage);
        loading := false;
        return None;
      }
      if !HasId(parsed.value) {
        error := Some(NoUserId);
        loading := false;
        return None;
      }
      fetchId := parsed.value.id;
    }

    /** The rest of loadProfile: a loaded record fills the form (absent
        fields as "") and, when it has an avatar, the preview; a failure
        only sets the error. The spinner stops in every case. */
    method CompleteLoad(baseUrl: string, reply: ProfileReply)
      modifies this
      ensures !loading && saving == old(saving) && avatarChosen == old(avatarChosen)
      ensures reply.Loaded? ==>
        && user == Some(reply.u) && error == old(error)
        && firstName == OrEmpty(reply.u.firstName) && lastName == OrEmpty(reply.u.lastName)
        && email == OrEmpty(reply.u.email)
        && (Present(reply.u.avatarUrl) ==> avatarPreview == Some(AvatarSource(baseUrl, reply.u.avatarUrl.value)))
        && (!Present(reply.u.avatarUrl) ==> avatarPreview == old(avatarPreview))
      ensures !reply.Loaded? ==>
        && user == old(user) && firstName == old(firstName) && lastName == old(lastName)
        && email == old(email) && avatarPreview == old(avatarPreview)
      ensures reply.HttpError? ==> error == Some("Error HTTP: " + IntToString(reply.status))
      ensures reply.Thrown? ==> error == Some(reply.message)
    {
      match reply {
        case Loaded(u) =>
          user := Some(u);
          firstName := OrEmpty(u.firstName);
          lastName := OrEmpty(u.lastName);
          email := OrEmpty(u.email);
          if Present(u.avatarUrl) {
            avatarPreview := Some(AvatarSource(baseUrl, u.avatarUrl.value));
          }
        case HttpError(status) =>
          error := Some("Error HTTP: " + IntToString(status));
        case Thrown(message) =>
          error := Some(message);
      }
      loading := false;
    }

    /** handleAvatarFile: with a file, remember it and preview its local
        object URL; without one, nothing. */
    method ChooseFile(objectUrl: Option<string>)
      modifies this
      ensures objectUrl.None? ==> unchanged(this)
      ensures objectUrl.Some? ==> avatarChosen && avatarPreview == objectUrl
      ensures user == old(user) && firstName == old(firstName) && lastName == old(lastName)
      ensures email == old(email) && error == old(error)
    {
      if objectUrl.Some? {
        avatarChosen := true;
        avatarPreview := objectUrl;
      }
    }

    /** handleSaveProfile. Without a loaded user nothing happens. A chosen
        file is uploaded first (a failed upload ends the save with the
        generic error). The PUT sends the form and the avatar URL; only an
        accepted PUT replaces the user, by the merged record, and writes
        that same record to the store. */
    method Save(storage: LocalStorage, upload: UploadReply, put: Reply)
      returns (sent: Option<ProfileUpdate>, alert: Option<string>)
      modifies this, storage
      ensures old(user).None? ==> sent.None? && alert.None? && unchanged(this) && unchanged(storage)
      ensures firstName == old(firstName) && lastName == old(lastName) && email == old(email)
      ensures avatarChosen == old(avatarChosen) && avatarPreview == old(avatarPreview) && loading == old(loading)
      ensures old(user).Some? ==> !saving
      ensures old(user).Some? && old(avatarChosen) && upload.UploadFailed? ==>
        sent.None? && alert.None? && error == Some(SaveFailed) && user == old(user) && unchanged(storage)
      ensures old(user).Some? && !(old(avatarChosen) && upload.UploadFailed?) ==>
        sent == Some(ProfileUpdate(old(firstName), old(lastName), old(email),
          SavedAvatar(old(user).value.avatarUrl, if old(avatarChosen) then Some(upload.url) else None)))
      ensures sent.Some? && put.Accepted? ==>
        && user == Some(Merge(old(user).value, sent.value))
        && storage.entries == old(storage.entries)[UserKey := Encode(user.value)]
        && ParseStoredUser(storage.entries) == user
        && alert == Some(Updated) && error.None?
      ensures sent.Some? && put.Refused? ==>
        user == old(user) && unchanged(storage) && alert.None? && error == Some(NotUpdated)
      ensures sent.Some? && put.Threw? ==>
        user == old(user) && unchanged(storage) && alert.None? && error == Some(SaveFailed)
    {
      if user.None? {
        return None, None;
      }
      var u := user.value;
      saving := true;
      error := None;
      var avatarUrl := u.avatarUrl;
      if avatarChosen {
        if upload.UploadFailed? {
          error := Some(SaveFailed);
          saving := false;
          return None, None;
        }
        avatarUrl := Some(upload.url);
      }
      var update := ProfileUpdate(firstName, lastName, email, avatarUrl);
      sent := Some(update);
      alert := None;
      match put {
        case Refused(_) =>
          error := Some(NotUpdated);
        case Threw =>
          error := Some(SaveFailed);
        case Accepted =>
          var updated := Merge(u, update);
          user := Some(updated);
          storage.SetItem(UserKey, Encode(updated));
          ParseStoredUserAfterWrite(old(storage.entries), updated);
          alert := Some(Updated);
      }
      saving := false;
    }

    /** The name on the page: the form's names joined, else the username. */
    function FullName(): (r: string)
      reads this
      requires user.Some?
      ensures JoinNames(firstName, lastName) != "" ==> r == JoinNames(firstName, lastName)
      ensures firstName == "" && lastName == "" ==> r == OrEmpty(user.value.username)
    {
      DisplayName(firstName, lastName, OrEmpty(user.value.username))
    }

    /** The placeholder shown without a photo: up to two upper-cased word
        starts of the name. */
    function Placeholder(): (r: string)
      reads this
      requires user.Some?
      ensures |r| <= 2 && r == ToUpper(Take(WordStarts(FullName(), true), 2))
    {
      InitialsAreWordStarts(FullName());
      Initials(FullName())
    }
  }
}
