/** The enrollments page of a student: the student's enrollments, the
    careers offered for a new one, adding and removing enrollments, and the
    link to the payments of an enrollment. */
module UserEnrollments {
  import opened JsText
  import opened Paging
  import opened Routes
  import UserPayments

  /** An enrollment (a student-career pair) as /enrollments/by-user lists it. */
  datatype EnrollmentItem = EnrollmentItem(id: int, careerId: int, careerName: string, inicioCursado: Option<string>)

  /** A career the student can be enrolled in. */
  datatype CareerOption = CareerOption(id: int, name: string)

  /** Body of POST /enrollments/by-user: always page 1 of 50. */
  datatype ByUserQuery = ByUserQuery(userId: int, page: int, pageSize: int)

  /** Body of POST /enrollments. */
  datatype NewEnrollment = NewEnrollment(userId: int, careerId: int)

  /** A navigation that carries `state.from` for the page it opens. */
  datatype Link = Link(path: string, from: string)

  const EnrollmentsPageSize := 50
  const CareerOptionsPageSize := 100

  function EnrollmentId(e: EnrollmentItem): int { e.id }

  /** `enrollments.some(e => e.career_id === careerIdNum)` */
  predicate AlreadyEnrolled(enrollments: seq<EnrollmentItem>, careerId: int) {
    exists i :: 0 <= i < |enrollments| && enrollments[i].careerId == careerId
  }

  /** The duplicate check built up one enrollment at a time: nothing is
      enrolled in an empty list, and appending an enrollment adds exactly
      its career. */
  lemma AlreadyEnrolledAppend(enrollments: seq<EnrollmentItem>, e: EnrollmentItem, careerId: int)
    ensures !AlreadyEnrolled([], careerId)
    ensures AlreadyEnrolled(enrollments + [e], careerId) <==>
      AlreadyEnrolled(enrollments, careerId) || e.careerId == careerId
  {
    var all := enrollments + [e];
    if AlreadyEnrolled(enrollments, careerId) {
      var i :| 0 <= i < |enrollments| && enrollments[i].careerId == careerId;
      assert all[i] == enrollments[i];
    }
    if e.careerId == careerId {
      assert all[|enrollments|] == e;
    }
    if AlreadyEnrolled(all, careerId) {
      var i :| 0 <= i < |all| && all[i].careerId == careerId;
      if i < |enrollments| {
        assert all[i] == enrollments[i];
      }
    }
  }

  /** handleViewPayments: the payments page of the enrollment, told that
      it was opened from this page; nothing for a user id of 0 or NaN. */
  function PaymentsLink(userIdNum: JsNum, enrollmentId: int): (r: Option<Link>)
    ensures r.Some? <==> Truthy(userIdNum)
    ensures r.Some? ==> r.value.from == "user-enrollments"
    ensures r.Some? ==> StartsWith(r.value.path, UserEnrollmentsPath(userIdNum.n))
    ensures r.Some? ==> r.value.path == EnrollmentPaymentsPath(userIdNum.n, enrollmentId)
  {
    if Truthy(userIdNum) then
      PaymentsUnderEnrollments(userIdNum.n, enrollmentId);
      Some(Link(EnrollmentPaymentsPath(userIdNum.n, enrollmentId), "user-enrollments"))
    else None
  }

  /** Opening the payments of an enrollment and pressing "back" there
      returns to this student's enrollments page: the payments page reads
      the user id back from its route and honours `from`. */
  lemma PaymentsLinkRoundTrip(uid: int, enrollmentId: int)
    requires uid != 0
    ensures var link := PaymentsLink(RouteId(Some(IntToString(uid))), enrollmentId);
      && link.Some?
      && link.value.path == EnrollmentPaymentsPath(uid, enrollmentId)
      && UserPayments.BackRoute(Some(link.value.from), RouteId(Some(IntToString(uid))))
         == GoTo(UserEnrollmentsPath(uid))
  {
    RouteIdOfId(uid);
    UserPayments.BackReturnsToEnrollments(uid);
  }

  class UserEnrollmentsView {
    const userIdNum: JsNum
    var enrollments: seq<EnrollmentItem>
    var enrollLoading: bool
    var enrollError: Option<string>
    var careers: seq<CareerOption>
    var careersLoading: bool
    var careersError: Option<string>
    var selectedCareerId: string

    constructor (idParam: Option<string>)
      ensures userIdNum == RouteId(idParam)
      ensures enrollments == [] && enrollLoading && enrollError.None?
      ensures careers == [] && careersLoading && careersError.None?
      ensures selectedCareerId == ""
    {
      userIdNum := RouteId(idParam);
      enrollments := [];
      enrollLoading := true;
      enrollError := None;
      careers := [];
      careersLoading := true;
      careersError := None;
      selectedCareerId := "";
    }

    /** loadEnrollments up to the fetch: nothing for a user id of 0 or NaN;
        otherwise the spinner goes on and the error is cleared. */
    method BeginEnrollments() returns (query: Option<ByUserQuery>)
      modifies this`enrollLoading, this`enrollError
      ensures query.Some? <==> Truthy(userIdNum)
      ensures query.Some? ==> query.value == ByUserQuery(userIdNum.n, 1, EnrollmentsPageSize)
      ensures query.Some? ==> enrollLoading && enrollError.None?
      ensures query.None? ==> enrollLoading == old(enrollLoading) && enrollError == old(enrollError)
    {
      if !Truthy(userIdNum) {
        return None;
      }
      enrollLoading, enrollError := true, None;
      query := Some(ByUserQuery(userIdNum.n, 1, EnrollmentsPageSize));
    }

    /** loadEnrollments after the fetch: a delivered page replaces the list;
        anything else keeps the list and sets the error. The spinner goes
        off either way. */
    method CompleteEnrollments(resp: PageResponse<EnrollmentItem>)
      modifies this`enrollments, this`enrollLoading, this`enrollError
      ensures !enrollLoading
      ensures Delivered(resp).Some? ==>
        enrollments == Delivered(resp).value.items && enrollError == old(enrollError)
      ensures Delivered(resp).None? ==>
        enrollments == old(enrollments)
        && enrollError == Some(FailureText(resp, "Error al obtener inscripciones"))
    {
      var page := Delivered(resp);
      if page.Some? {
        enrollments := page.value.items;
      } else {
        enrollError := Some(FailureText(resp, "Error al obtener inscripciones"));
      }
      enrollLoading := false;
    }

    /** loadCareers up to the fetch: the first 100 careers, no search. */
    method BeginCareers() returns (query: SearchQuery)
      modifies this`careersLoading, this`careersError
      ensures query == SearchQuery(1, CareerOptionsPageSize, None)
      ensures careersLoading && careersError.None?
    {
      careersLoading, careersError := true, None;
      query := SearchQuery(1, CareerOptionsPageSize, None);
    }

    /** loadCareers after the fetch. */
    method CompleteCareers(resp: PageResponse<CareerOption>)
      modifies this`careers, this`careersLoading, this`careersError
      ensures !careersLoading
      ensures Delivered(resp).Some? ==>
        careers == Delivered(resp).value.items && careersError == old(careersError)
      ensures Delivered(resp).None? ==>
        careers == old(careers) && careersError == Some(FailureText(resp, "Error al obtener carreras"))
    {
      var page := Delivered(resp);
      if page.Some? {
        careers := page.value.items;
      } else {
        careersError := Some(FailureText(resp, "Error al obtener carreras"));
      }
      careersLoading := false;
    }

    /** handleAddEnrollment: nothing for a user id of 0 or NaN; an alert
        when no career is selected or the student already has it; otherwise
        the enrollment is posted, and an accepted post reloads the list.
        The list itself is left to that reload. */
    method AddEnrollment(reply: Reply) returns (sent: Option<NewEnrollment>, alert: Option<string>, reload: bool)
      ensures sent.Some? <==>
        Truthy(userIdNum) && Truthy(ParseInt(selectedCareerId))
        && !AlreadyEnrolled(enrollments, ParseInt(selectedCareerId).n)
      ensures sent.Some? ==> sent.value == NewEnrollment(userIdNum.n, ParseInt(selectedCareerId).n)
      ensures sent.Some? ==> !AlreadyEnrolled(enrollments, sent.value.careerId) && sent.value.careerId != 0
      ensures !Truthy(userIdNum) ==> alert.None?
      ensures Truthy(userIdNum) && !Truthy(ParseInt(selectedCareerId)) ==>
        alert == Some("Seleccioná una carrera antes de asignar")
      ensures (Truthy(userIdNum) && Truthy(ParseInt(selectedCareerId))
        && AlreadyEnrolled(enrollments, ParseInt(selectedCareerId).n)) ==>
        alert == Some("Este alumno ya está inscripto en esa carrera")
      ensures reload <==> sent.Some? && reply.Accepted?
      ensures sent.Some? && reply.Accepted? ==> alert == Some("Carrera asignada correctamente")
      ensures sent.Some? && reply.Refused? ==> alert == Some(RefusalText(reply.detail, "No se pudo crear la inscripción"))
      ensures sent.Some? && reply.Threw? ==> alert == Some("Error asignando carrera")
    {
      sent, alert, reload := None, None, false;
      if !Truthy(userIdNum) {
        return;
      }
      var careerIdNum := ParseInt(selectedCareerId);
      if !Truthy(careerIdNum) {
        alert := Some("Seleccioná una carrera antes de asignar");
        return;
      }
      if AlreadyEnrolled(enrollments, careerIdNum.n) {
        alert := Some("Este alumno ya está inscripto en esa carrera");
        return;
      }
      sent := Some(NewEnrollment(userIdNum.n, careerIdNum.n));
      match reply
      case Accepted =>
        reload, alert := true, Some("Carrera asignada correctamente");
      case Refused(detail) =>
        alert := Some(RefusalText(detail, "No se pudo crear la inscripción"));
      case Threw =>
        alert := Some("Error asignando carrera");
    }

    /** handleDeleteEnrollment: after confirmation and an OK reply exactly
        the enrollment with that id leaves the list; a refusal or a failure
        only alerts. */
    method DeleteEnrollment(enrollmentId: int, confirmed: bool, reply: Reply) returns (alert: Option<string>)
      modifies this`enrollments
      ensures confirmed && reply.Accepted? ==> enrollments == RemoveId(old(enrollments), EnrollmentId, enrollmentId)
      ensures !(confirmed && reply.Accepted?) ==> enrollments == old(enrollments)
      ensures alert.Some? <==> confirmed && !reply.Accepted?
      ensures confirmed && reply.Refused? ==> alert == Some("No se pudo quitar la inscripción")
      ensures confirmed && reply.Threw? ==> alert == Some("Error quitando la inscripción")
    {
      alert := None;
      if !confirmed {
        return;
      }
      match reply
      case Accepted =>
        enrollments := RemoveId(enrollments, EnrollmentId, enrollmentId);
      case Refused(_) =>
        alert := Some("No se pudo quitar la inscripción");
      case Threw =>
        alert := Some("Error quitando la inscripción");
    }
  }

  /** After a successful removal and a reload that still lists the other
      enrollments, adding the removed career again passes the duplicate
      check. */
  lemma RemovedCareerMayBeAddedAgain(enrollments: seq<EnrollmentItem>, e: EnrollmentItem)
    requires e in enrollments
    requires forall i, j :: 0 <= i < j < |enrollments| ==> enrollments[i].careerId != enrollments[j].careerId
    ensures !AlreadyEnrolled(RemoveId(enrollments, EnrollmentId, e.id), e.careerId)
  {
    var rest := RemoveId(enrollments, EnrollmentId, e.id);
    forall k | 0 <= k < |rest| ensures rest[k].careerId != e.careerId {
      assert rest[k] in rest;
      var i :| 0 <= i < |enrollments| && enrollments[i] == e;
      var j :| 0 <= j < |enrollments| && enrollments[j] == rest[k];
      assert i != j;
    }
  }
}
