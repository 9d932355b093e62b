/** What both plugins exchange with the website: the pending commands it
    returns, the way an HTTP status code routes a response to the success
    callback or to the error handler, the JSON shape of the report, and the
    console replies. */
module Protocol {
  import opened Text

  /** One entry of the website's `commands` list: the target's uid, a display
      name to fall back on, and the command templates to run for it. */
  datatype PendingCommand = PendingCommand(userId: string, userName: string, values: seq<string>)

  /** How the report POST ended: a status code with the parsed body (`None`
      when the body did not parse into a response), or an exception before
      any status code arrived. */
  datatype Response = Response(code: int, body: Option<seq<PendingCommand>>) | Unreachable

  /** How the connectivity GET ended. */
  datatype PingResponse = PingResponse(code: int) | PingUnreachable

  /** `HttpResponseMessage.IsSuccessStatusCode`: a 2xx code. */
  predicate IsSuccessStatusCode(code: int)
  {
    200 <= code <= 299
  }

  /** Which of the two handlers a response reaches; `Discarded` when an
      exception ends the request and it is only logged. */
  datatype Route<T> = ToCallback(value: T) | ToErrorHandler(code: int) | Discarded

  /** The status-code split of a report POST. */
  function RouteFetch(r: Response): (route: Route<seq<PendingCommand>>)
    ensures route.ToErrorHandler? <==> r.Response? && (r.code < 200 || r.code >= 300)
    ensures route.ToErrorHandler? ==> route.code == r.code
    ensures route.ToCallback? <==> r.Response? && 200 <= r.code < 300 && r.body.Some?
    ensures route.ToCallback? ==> route.value == r.body.value
  {
    match r
    case Unreachable => Discarded
    case Response(code, body) =>
      if !IsSuccessStatusCode(code) then ToErrorHandler(code)
      else if body.None? then Discarded
      else ToCallback(body.value)
  }

  /** The status-code split of a connectivity GET. */
  function RoutePing(r: PingResponse): (route: Route<()>)
    ensures route.ToErrorHandler? <==> r.PingResponse? && (r.code < 200 || r.code >= 300)
    ensures route.ToErrorHandler? ==> route.code == r.code
    ensures route.ToCallback? <==> r.PingResponse? && 200 <= r.code < 300
  {
    match r
    case PingUnreachable => Discarded
    case PingResponse(code) => if IsSuccessStatusCode(code) then ToCallback(()) else ToErrorHandler(code)
  }

  // ---------------------------------------------------------------------
  // Console replies
  // ---------------------------------------------------------------------

  const SetupHelp := "You must first add this server in your Azuriom admin dashboard, in the 'Servers' section."
  const Linked := "Linked to the website successfully."
  const NotConfigured := "AzLink is not configured yet, use the 'setup' subcommand first."
  const Connected := "Connected to the website successfully."
  const Fetched := "Data has been fetched successfully."

  function ErrorReply(code: int): string
  {
    "An error occurred, code " + IntString(code)
  }

  /** Different status codes give different error replies. */
  lemma ErrorReplyNamesCode(a: int, b: int)
    requires ErrorReply(a) == ErrorReply(b)
    ensures a == b
  {
    var p := "An error occurred, code ";
    assert ErrorReply(a)[|p|..] == IntString(a);
    assert ErrorReply(b)[|p|..] == IntString(b);
    IntStringInjective(a, b);
  }

  lemma IntStringInjective(a: int, b: int)
    requires IntString(a) == IntString(b)
    ensures a == b
  {
    var sa := if a < 0 then -a else a;
    var sb := if b < 0 then -b else b;
    DecimalValue(sa);
    DecimalValue(sb);
    if a < 0 && b < 0 {
      assert IntString(a)[1..] == DecimalString(sa);
      assert IntString(b)[1..] == DecimalString(sb);
    }
  }

  /** What a report request ended in: the commands that were run and whether
      the dispatch ran to its end, an error status code, or nothing. */
  datatype FetchOutcome = Dispatched(executed: seq<string>, completed: bool) | Rejected(code: int) | Abandoned

  /** A report that went out, and what became of it. */
  datatype FetchRun = FetchRun(payload: Payload, outcome: FetchOutcome)

  /** The reply of the manual fetch command once its request has ended. */
  function FetchReplies(o: FetchOutcome): seq<string>
  {
    match o
    case Dispatched(_, completed) => if completed then [Fetched] else []
    case Rejected(code) => [ErrorReply(code)]
    case Abandoned => []
  }

  /** The reply of a ping whose success reply is `success`. */
  function PingReplies(route: Route<()>, success: string): seq<string>
  {
    match route
    case ToCallback(_) => [success]
    case ToErrorHandler(code) => [ErrorReply(code)]
    case Discarded => []
  }

  // ---------------------------------------------------------------------
  // The report
  // ---------------------------------------------------------------------

  datatype Json = JString(str: string) | JInt(num: int) | JBool(flag: bool) | JArray(items: seq<Json>) | JObject(fields: map<string, Json>)

  /** The report body: a dictionary from keys to JSON values. */
  type Payload = map<string, Json>

  /** The keys every report has; a full report adds "ram". */
  const ReportKeys: set<string> := {"platform", "version", "players", "maxPlayers", "full"}

  /** A byte count in whole megabytes, each division rounding down. */
  function Megabytes(bytes: nat): nat
  {
    bytes / 1024 / 1024
  }

  /** The reported figure is the number of whole mebibytes in the count. */
  lemma MegabytesBounds(bytes: nat)
    ensures Megabytes(bytes) * 1048576 <= bytes < (Megabytes(bytes) + 1) * 1048576
  {
  }

  function PlatformJson(kind: string, name: string, version: string): Json
  {
    JObject(map["type" := JString(kind), "name" := JString(name), "version" := JString(version), "key" := JString("uid")])
  }

  /** One online player as the report lists it. */
  datatype Entry = Entry(name: string, uid: string)

  function EntryJson(e: Entry): Json
  {
    JObject(map["name" := JString(e.name), "uid" := JString(e.uid)])
  }

  function EntriesJson(es: seq<Entry>): seq<Json>
  {
    seq(|es|, i requires 0 <= i < |es| => EntryJson(es[i]))
  }

  /** How the website reads one player entry back. */
  function ReadEntry(j: Json): Option<Entry>
  {
    if j.JObject? && "name" in j.fields && "uid" in j.fields
       && j.fields["name"].JString? && j.fields["uid"].JString?
    then Some(Entry(j.fields["name"].str, j.fields["uid"].str))
    else None
  }

  function ReadEntries(items: seq<Json>): Option<seq<Entry>>
    decreases |items|
  {
    if items == [] then Some([])
    else match (ReadEntry(items[0]), ReadEntries(items[1..]))
      case (Some(e), Some(es)) => Some([e] + es)
      case _ => None
  }

  /** The player list of a report reads back as the entries written. */
  lemma {:induction false} EntriesRoundTrip(es: seq<Entry>)
    ensures ReadEntries(EntriesJson(es)) == Some(es)
    decreases |es|
  {
    if es != [] {
      assert EntriesJson(es)[1..] == EntriesJson(es[1..]);
      EntriesRoundTrip(es[1..]);
      assert es == [es[0]] + es[1..];
    }
  }
}
