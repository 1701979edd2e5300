/** The administration dashboard: four totals, the latest payments and the
    latest news, loaded all together or not at all, and the texts of its
    two tables. */
module AdminDashboard {
  import opened JsText
  import opened Storage

  /** A news item as /news/paginated lists it. */
  datatype NewsItem = NewsItem(
    id: int, title: string, createdAt: Option<string>, content: Option<string>, body: Option<string>)

  /** The student of a payment row. */
  datatype Alumno = Alumno(
    id: int, username: string, firstName: Option<string>, lastName: Option<string>, dni: Option<string>)

  /** The career of a payment row; its name may be absent. */
  datatype CareerRef = CareerRef(id: int, name: Option<string>)

  /** A payment as /payments/paginated lists it; amounts are integers. */
  datatype PaymentListItem = PaymentListItem(
    id: int, numeroCuota: int, monto: int, fechaPago: Option<string>,
    adelantado: bool, anulado: bool, alumno: Option<Alumno>, career: Option<CareerRef>)

  const SnippetLength := 90

  /** `(n.content || n.body || "").trim()`: the first non-empty text,
      trimmed only after it has been chosen. */
  function SnippetSource(n: NewsItem): (r: string)
    ensures Present(n.content) ==> r == Trim(n.content.value)
    ensures !Present(n.content) && Present(n.body) ==> r == Trim(n.body.value)
    ensures !Present(n.content) && !Present(n.body) ==> r == ""
    ensures r != [] ==> !IsSpace(r[0]) && !IsSpace(r[|r| - 1])
  {
    Trim(if Present(n.content) then n.content.value else if Present(n.body) then n.body.value else "")
  }

  /** getNewsSnippet: a placeholder for no text, the text itself when it
      fits, otherwise its first maxLength characters with trailing blanks
      removed and an ellipsis. */
  function NewsSnippet(n: NewsItem, maxLength: nat): (r: string)
    ensures SnippetSource(n) == "" ==> r == "Sin detalle cargado"
    ensures SnippetSource(n) != "" && |SnippetSource(n)| <= maxLength ==> r == SnippetSource(n)
    ensures |SnippetSource(n)| > maxLength ==>
      && 1 <= |r| <= maxLength + 1 && r[|r| - 1] == '…'
      && r[..|r| - 1] == TrimEnd(SnippetSource(n)[..maxLength])
      && r[..|r| - 1] <= SnippetSource(n)
  {
    var raw := SnippetSource(n);
    if raw == "" then "Sin detalle cargado"
    else if |raw| <= maxLength then raw
    else
      var cut := TrimEnd(raw[..maxLength]);
      assert cut <= raw[..maxLength] <= raw;
      cut + "…"
  }

  /** A content of blanks hides the body: it is chosen (it is a non-empty
      text) and only then trimmed to nothing. */
  lemma BlankContentHidesBody(n: NewsItem)
    requires n.content.Some? && n.content.value != "" && IsBlank(n.content.value)
    ensures NewsSnippet(n, SnippetLength) == "Sin detalle cargado"
  {
  }

  /** getNombreAlumno: "-" without a student; otherwise the names, the
      username, or "-". Never empty. */
  function NombreAlumno(p: PaymentListItem): (r: string)
    ensures r != ""
    ensures p.alumno.None? ==> r == "-"
    ensures p.alumno.Some? ==>
      var a := p.alumno.value;
      var names := JoinNames(OrEmpty(a.firstName), OrEmpty(a.lastName));
      && (names != "" ==> r == names)
      && (names == "" && a.username != "" ==> r == a.username)
      && (names == "" && a.username == "" ==> r == "-")
  {
    match p.alumno
    case None => "-"
    case Some(a) =>
      var names := JoinNames(OrEmpty(a.firstName), OrEmpty(a.lastName));
      if names != "" then names else if a.username != "" then a.username else "-"
  }

  /** getNombreCarrera: `p.career?.name ?? "-"`; an empty name is kept,
      since `??` replaces only a missing one. */
  function NombreCarrera(p: PaymentListItem): (r: string)
    ensures p.career.None? || p.career.value.name.None? ==> r == "-"
    ensures p.career.Some? && p.career.value.name.Some? ==> r == p.career.value.name.value
  {
    if p.career.Some? && p.career.value.name.Some? then p.career.value.name.value else "-"
  }

  /** The part of a paginated reply the dashboard reads. */
  datatype SimpleData<T> = SimpleData(items: Option<seq<T>>, totalItems: Option<int>)

  /** One of the four requests: rejected with a message, answered with a
      status outside 200-299, or answered OK with a body whose `data` may
      be absent. */
  datatype StatReply<T> = Thrown(message: string) | NotOk(status: int) | Ok(data: Option<SimpleData<T>>)

  /** `data?.total_items ?? 0` */
  function Total<T>(reply: StatReply<T>): (r: int)
    requires reply.Ok?
    ensures reply.data.None? || reply.data.value.totalItems.None? ==> r == 0
    ensures reply.data.Some? && reply.data.value.totalItems.Some? ==> r == reply.data.value.totalItems.value
  {
    if reply.data.Some? && reply.data.value.totalItems.Some? then reply.data.value.totalItems.value else 0
  }

  /** `data?.items ?? []` */
  function Items<T>(reply: StatReply<T>): (r: seq<T>)
    requires reply.Ok?
    ensures reply.data.None? || reply.data.value.items.None? ==> r == []
    ensures reply.data.Some? && reply.data.value.items.Some? ==> r == reply.data.value.items.value
  {
    if reply.data.Some? && reply.data.value.items.Some? then reply.data.value.items.value else []
  }

  /** The message of a failed request, naming its endpoint. */
  function FailureMessage<T>(endpoint: string, reply: StatReply<T>): (r: string)
    requires !reply.Ok?
    ensures reply.Thrown? ==> r == reply.message
    ensures reply.NotOk? ==>
      var prefix := "Error " + endpoint + ": ";
      StartsWith(r, prefix) && r[|prefix|..] == IntToString(reply.status)
  {
    match reply
    case Thrown(m) => m
    case NotOk(status) => "Error " + endpoint + ": " + IntToString(status)
  }

  datatype Stats = Stats(totalAlumnos: int, totalCarreras: int, totalPagos: int, totalNoticias: int)

  class AdminDashboardView {
    var stats: Stats
    var lastPayments: seq<PaymentListItem>
    var lastNews: seq<NewsItem>
    var loading: bool
    var error: Option<string>

    constructor ()
      ensures stats == Stats(0, 0, 0, 0) && lastPayments == [] && lastNews == []
      ensures loading && error.None?
    {
      stats := Stats(0, 0, 0, 0);
      lastPayments := [];
      lastNews := [];
      loading := true;
      error := None;
    }

    /** loadDashboard: the four requests in turn; the first that fails ends
        the load with its message and nothing else changes; only when all
        four succeed are the totals and both lists replaced. */
    method Load(users: StatReply<()>, careers: StatReply<()>,
                payments: StatReply<PaymentListItem>, news: StatReply<NewsItem>)
      modifies this
      ensures !loading
      ensures users.Ok? && careers.Ok? && payments.Ok? && news.Ok? ==>
        && error.None?
        && stats == Stats(Total(users), Total(careers), Total(payments), Total(news))
        && lastPayments == Items(payments) && lastNews == Items(news)
      ensures !(users.Ok? && careers.Ok? && payments.Ok? && news.Ok?) ==>
        stats == old(stats) && lastPayments == old(lastPayments) && lastNews == old(lastNews) && error.Some?
      ensures !users.Ok? ==> error == Some(FailureMessage("users/paginated", users))
      ensures users.Ok? && !careers.Ok? ==> error == Some(FailureMessage("careers/paginated", careers))
      ensures users.Ok? && careers.Ok? && !payments.Ok? ==> error == Some(FailureMessage("payments/paginated", payments))
      ensures users.Ok? && careers.Ok? && payments.Ok? && !news.Ok? ==> error == Some(FailureMessage("news/paginated", news))
    {
      loading, error := true, None;
      if !users.Ok? {
        error, loading := Some(FailureMessage("users/paginated", users)), false;
        return;
      }
      if !careers.Ok? {
        error, loading := Some(FailureMessage("careers/paginated", careers)), false;
        return;
      }
      if !payments.Ok? {
        error, loading := Some(FailureMessage("payments/paginated", payments)), false;
        return;
      }
      if !news.Ok? {
        error, loading := Some(FailureMessage("news/paginated", news)), false;
        return;
      }
      stats := Stats(Total(users), Total(careers), Total(payments), Total(news));
      lastPayments := Items(payments);
      lastNews := Items(news);
      loading := false;
    }
  }
}
