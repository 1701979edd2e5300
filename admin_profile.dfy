/** The administrator's profile page: everything it shows is read from the
    stored user record on render, with fixed fallbacks for missing parts. */
module AdminProfile {
  import opened JsText
  import opened Storage

  /** The displayed name of a parsed record: first and last name joined,
      else the username, else "" (also with no record). */
  function FullName(user: Option<UserRecord>): (r: string)
    ensures user.None? ==> r == ""
    ensures user.Some? ==>
      var u := user.value;
      (r == "" <==> OrEmpty(u.firstName) == "" && OrEmpty(u.lastName) == "" && OrEmpty(u.username) == "")
      && (OrEmpty(u.firstName) != "" ==> StartsWith(r, OrEmpty(u.firstName)))
      && (OrEmpty(u.firstName) == "" && OrEmpty(u.lastName) == "" ==> r == OrEmpty(u.username))
    ensures user.Some? ==>
      var u := user.value;
      r == DisplayName(OrEmpty(u.firstName), OrEmpty(u.lastName), OrEmpty(u.username))
  {
    match user
    case None => ""
    case Some(u) => DisplayName(OrEmpty(u.firstName), OrEmpty(u.lastName), OrEmpty(u.username))
  }

  /** The avatar text: "AD" for an empty name, otherwise the upper-cased
      first letters of the first two words. */
  function AvatarInitials(fullName: string): (r: string)
    ensures fullName == "" ==> r == "AD"
    ensures fullName != "" ==> r == ToUpper(Take(WordStarts(fullName, true), 2))
    ensures |r| <= 2
  {
    if fullName == "" then "AD"
    else
      InitialsAreWordStarts(fullName);
      Initials(fullName)
  }

  /** `value || "-"` for one field of the card. */
  function OrDash(value: Option<string>): (r: string)
    ensures r != ""
    ensures Present(value) ==> r == value.value
    ensures !Present(value) ==> r == "-"
  {
    if Present(value) then value.value else "-"
  }

  /** What the page shows: avatar initials, header name, and the four
      fields of the personal-data card. */
  datatype ProfileCard = ProfileCard(
    initials: string,
    headerName: string,
    nameField: string,
    usernameField: string,
    emailField: string,
    dniField: string)

  /** The page for the record parsed from the "user" key (a missing or
      malformed record is a null user, never an exception). */
  function Card(store: Store): (r: ProfileCard)
    ensures r.headerName != "" && r.nameField != ""
    ensures r.usernameField != "" && r.emailField != "" && r.dniField != ""
    ensures r.initials == AvatarInitials(FullName(ParseStoredUser(store)))
    ensures FullName(ParseStoredUser(store)) == "" ==>
      r.headerName == "Administrador" && r.nameField == "-" && r.initials == "AD"
    ensures FullName(ParseStoredUser(store)) != "" ==>
      r.headerName == FullName(ParseStoredUser(store)) && r.nameField == r.headerName
  {
    var user := ParseStoredUser(store);
    var name := FullName(user);
    ProfileCard(
      AvatarInitials(name),
      if name != "" then name else "Administrador",
      if name != "" then name else "-",
      OrDash(if user.Some? then user.value.username else None),
      OrDash(if user.Some? then user.value.email else None),
      OrDash(if user.Some? then user.value.dni else None))
  }

  /** With no record in the store the page shows only its fallbacks. */
  lemma EmptyStoreCard(store: Store)
    requires UserKey !in store
    ensures Card(store) == ProfileCard("AD", "Administrador", "-", "-", "-", "-")
  {
  }

  /** After the login stores a record, the card shows that record's
      username, email and DNI whenever they are non-empty. */
  lemma CardShowsStoredRecord(store: Store, u: UserRecord)
    ensures Present(u.username) ==> Card(store[UserKey := Encode(u)]).usernameField == u.username.value
    ensures Present(u.email) ==> Card(store[UserKey := Encode(u)]).emailField == u.email.value
    ensures Present(u.dni) ==> Card(store[UserKey := Encode(u)]).dniField == u.dni.value
    ensures FullName(Some(u)) != "" ==> Card(store[UserKey := Encode(u)]).headerName == FullName(Some(u))
  {
    ParseStoredUserAfterWrite(store, u);
  }
}
