/** The student's landing pages. The home page and the dashboard hold the
    same state and run the same mount effect: redirect to the login
    without a stored user id, take the stored record when it parses, and
    ask for the first enrollment of the student to learn the total count.
    The dashboard adds the sentence that describes that count. */
module AlumnoHome {
  import opened JsText
  import opened Storage
  import Navbar

  /** Body of POST /enrollments/by-user: one item of page 1 is enough to
      read total_items. */
  datatype CountQuery = CountQuery(userId: JsNum, page: int, pageSize: int)

  /** The outcome of that request: a network failure, an HTTP error or an
      unreadable body all end in the catch; otherwise the body's `success`
      flag and, when `data` is present, its total_items. */
  datatype CountReply = Failed | Body(success: bool, totalItems: Option<int>)

  /** `success && data`: the only reply that sets the count. */
  predicate CountDelivered(reply: CountReply) {
    reply.Body? && reply.success && reply.totalItems.Some?
  }

  /** getNombreMostrable: "" without a user, the joined names when one is
      non-empty, else the username. */
  function NombreMostrable(user: Option<UserRecord>): (r: string)
    ensures user.None? ==> r == ""
    ensures user.Some? && JoinNames(OrEmpty(user.value.firstName), OrEmpty(user.value.lastName)) != "" ==>
      r == JoinNames(OrEmpty(user.value.firstName), OrEmpty(user.value.lastName))
    ensures user.Some? && OrEmpty(user.value.firstName) == "" && OrEmpty(user.value.lastName) == "" ==>
      r == OrEmpty(user.value.username)
  {
    match user
    case None => ""
    case Some(u) => DisplayName(OrEmpty(u.firstName), OrEmpty(u.lastName), OrEmpty(u.username))
  }

  /** The header line: "Alumno" while there is no user. */
  function HeaderName(user: Option<UserRecord>): (r: string)
    ensures user.None? ==> r == "Alumno"
    ensures user.Some? ==> r == NombreMostrable(user)
  {
    if user.Some? then NombreMostrable(user) else "Alumno"
  }

  /** `careersCount ?? 0`: the number on the careers card. */
  function ShownCount(count: Option<int>): (r: int)
    ensures count.None? ==> r == 0
    ensures count.Some? ==> r == count.value
  {
    match count
    case None => 0
    case Some(n) => n
  }

  /** The header and the navigation bar show the same name for a stored
      record with a name; with no record they differ ("Alumno" against
      "Usuario"). */
  lemma HeaderAgreesWithNavbar(store: Store)
    ensures ParseStoredUser(store).Some? && NombreMostrable(ParseStoredUser(store)) != "" ==>
      HeaderName(ParseStoredUser(store)) == Navbar.UserName(store)
    ensures ParseStoredUser(store).None? ==>
      HeaderName(ParseStoredUser(store)) == "Alumno" && Navbar.UserName(store) == "Usuario"
  {
  }

  class StudentHomeView {
    var user: Option<UserRecord>
    var careersCount: Option<int>
    var loading: bool

    constructor ()
      ensures user.None? && careersCount.None? && loading
    {
      user := None;
      careersCount := None;
      loading := true;
    }

    /** The mount effect up to the fetch. Without a "user_id" it navigates
        to the login and asks for nothing. Otherwise it takes the stored
        record when it parses (a malformed one is only logged) and asks for
        the count with the parsed id, NaN included. */
    method Mount(store: Store) returns (navigate: Option<string>, query: Option<CountQuery>)
      modifies this
      ensures !Present(GetItem(store, UserIdKey)) ==>
        navigate == Some("/login") && query.None? && unchanged(this)
      ensures Present(GetItem(store, UserIdKey)) ==>
        && navigate.None?
        && query == Some(CountQuery(ParseInt(store[UserIdKey]), 1, 1))
        && user == (if ParseStoredUser(store).Some? then ParseStoredUser(store) else old(user))
        && careersCount == old(careersCount) && loading == old(loading)
    {
      var idText := GetItem(store, UserIdKey);
      if !Present(idText) {
        return Some("/login"), None;
      }
      var parsed := ParseStoredUser(store);
      if parsed.Some? {
        user := parsed;
      }
      navigate := None;
      query := Some(CountQuery(ParseInt(idText.value), 1, 1));
    }

    /** The end of loadData: the count is taken only from a successful body
        with data; every other outcome leaves it as it was. The spinner
        stops in every case. */
    method Complete(reply: CountReply)
      modifies this
      ensures CountDelivered(reply) ==> careersCount == reply.totalItems
      ensures !CountDelivered(reply) ==> careersCount == old(careersCount)
      ensures !loading && user == old(user)
    {
      if CountDelivered(reply) {
        careersCount := reply.totalItems;
      }
      loading := false;
    }
  }

  /** A mount without "user_id" leaves the page in its initial state: no
      user, no count and the spinner on. */
  method MountWithoutSession(store: Store) returns (view: StudentHomeView, navigate: Option<string>)
    requires UserIdKey !in store
    ensures navigate == Some("/login")
    ensures view.user.None? && view.careersCount.None? && view.loading
  {
    view := new StudentHomeView();
    var query;
    navigate, query := view.Mount(store);
  }
}

/** The dashboard's own text: the sentence describing the count in the
    header pill. */
module AlumnoDashboard {
  import opened JsText
  import opened AlumnoHome

  // The two long sentences are written in two pieces so that their first
  // characters can be read off by the verifier.
  const Pending := "Tus inscripciones " + "se cargarán en unos instantes."
  const NoEnrollment := "Todavía no " + "estás inscripto a ninguna carrera."
  const OneEnrollment := "Tenés 1 carrera activa."

  function Several(n: int): string {
    "Tenés " + IntToString(n) + " carreras activas."
  }

  /** renderInscripcionesText: four cases. */
  function EnrollmentText(count: Option<int>): (r: string)
    ensures count.None? ==> r == Pending
    ensures count == Some(0) ==> r == NoEnrollment
    ensures count == Some(1) ==> r == OneEnrollment
    ensures count.Some? && count.value != 0 && count.value != 1 ==> r == Several(count.value)
  {
    match count
    case None => Pending
    case Some(n) => if n == 0 then NoEnrollment else if n == 1 then OneEnrollment else Several(n)
  }

  /** The header pill: the loading text while the request runs, then the
      sentence. */
  function Pill(loading: bool, count: Option<int>): (r: string)
    ensures loading ==> r == "Cargando tu información..."
    ensures !loading ==> r == EnrollmentText(count)
  {
    if loading then "Cargando tu información..." else EnrollmentText(count)
  }

  /** Different counts give different sentences, so the sentence always
      tells the count (or that it is not known). */
  lemma {:induction false} EnrollmentTextInjective(a: Option<int>, b: Option<int>)
    requires EnrollmentText(a) == EnrollmentText(b)
    ensures a == b
  {
    if a.Some? && a.value != 0 && a.value != 1 {
      SeveralDiffersFromFixed(a.value);
      if b.Some? && b.value != 0 && b.value != 1 {
        SeveralInjective(a.value, b.value);
      }
    } else if b.Some? && b.value != 0 && b.value != 1 {
      SeveralDiffersFromFixed(b.value);
    }
  }

  lemma SeveralInjective(a: int, b: int)
    requires Several(a) == Several(b)
    ensures a == b
  {
    var sa, sb := IntToString(a), IntToString(b);
    assert |sa| == |sb|;
    assert sa == Several(a)[6..6 + |sa|];
    assert sb == Several(b)[6..6 + |sb|];
    IntToStringInjective(a, b);
  }

  lemma SeveralDiffersFromFixed(n: int)
    ensures Several(n) != Pending && Several(n) != NoEnrollment && Several(n) != OneEnrollment
  {
    assert Several(n)[1] == 'e';
    assert Pending[1] == 'u' && NoEnrollment[1] == 'o';
    assert |Several(n)| == 24 + |IntToString(n)|;
  }

  /** A failed request leaves the count unknown, so once the spinner stops
      the pill keeps promising that the enrollments will load. */
  lemma FailedLoadKeepsPending(count: Option<int>, reply: CountReply)
    requires count.None? && !CountDelivered(reply)
    ensures Pill(false, count) == Pending
    ensures ShownCount(count) == 0
  {
  }
}
