/**
 * The data types shared by the dashboard and the response handling of the HTTP client
 * (lib/api.ts). The fetch wrappers themselves are calls into a remote server and are not modelled.
 */
module Api {
  import opened Wrappers
  import Text

  /** The four roles the server assigns. */
  datatype UserRole = Admin | GeneralManager | DeputyGeneralManager | Developer

  /** The wire name of a role. */
  function RoleName(r: UserRole): string {
    match r
    case Admin => "admin"
    case GeneralManager => "general_manager"
    case DeputyGeneralManager => "deputy_general_manager"
    case Developer => "developer"
  }

  const RoleNames: set<string> := {"admin", "general_manager", "deputy_general_manager", "developer"}

  /** The role a wire name denotes, if any. */
  function ParseRole(s: string): (r: Option<UserRole>)
    ensures r.Some? <==> s in RoleNames
    ensures r.Some? ==> RoleName(r.value) == s
  {
    if s == "admin" then Some(Admin)
    else if s == "general_manager" then Some(GeneralManager)
    else if s == "deputy_general_manager" then Some(DeputyGeneralManager)
    else if s == "developer" then Some(Developer)
    else None
  }

  /** Every role has its own name, and parsing the name gives the role back. */
  lemma RoleNameRoundTrip(r: UserRole)
    ensures RoleName(r) in RoleNames
    ensures ParseRole(RoleName(r)) == Some(r)
  {
  }

  datatype User = User(
    id: string, firstName: string, lastName: string, email: string, phone: string,
    username: string, role: UserRole, createdAt: string)

  datatype AttachmentType = Image | Document | Video | Link | AttachmentFile

  datatype ReportAttachment = ReportAttachment(kind: AttachmentType, name: string, url: string)

  datatype BlockType = TextBlock | ListBlock | CustomBlock

  /** A content block; of its free-form `value` only the `markdown` member is represented;
      caption is the block's `label`. */
  datatype ReportContentBlock = ReportContentBlock(
    kind: BlockType, caption: Option<string>, key: Option<string>, markdown: Option<string>)

  datatype CreateReportPayload = CreateReportPayload(
    title: string, body: string, content: seq<ReportContentBlock>, attachments: seq<ReportAttachment>)

  /** A report as the server lists it; status is a free string, as in the source. */
  datatype Report = Report(
    id: string, title: string, body: string, createdAt: string,
    content: Option<seq<ReportContentBlock>>, attachments: Option<seq<ReportAttachment>>,
    developerId: string, status: string, submittedAt: string, updatedAt: string)

  /** A parsed JSON value. */
  datatype Json =
    | JNull
    | JBool(b: bool)
    | JNumber(n: int)
    | JString(s: string)
    | JArray(items: seq<Json>)
    | JObject(fields: map<string, Json>)

  const EmptyObject: Json := JObject(map[])

  /** An HTTP response: its status and its body, None when the body is not valid JSON. */
  datatype Response = Response(status: nat, body: Option<Json>) {
    /** Response.ok of the Fetch standard: a status in the range 200 to 299. */
    predicate Ok() { 200 <= status <= 299 }
  }

  /** Why the promise returned by handleResponse rejects. */
  datatype Rejection =
    | RequestFailed(message: string)   // the Error thrown for a non-ok response
    | NullBodyAccess                   // reading `.error` of a JSON null body throws a TypeError
    | BodyParseFailed                  // `response.json()` of an ok response rejects

  datatype Outcome = Resolved(value: Json) | Rejected(reason: Rejection)

  /**
   * How a call made by a component settles, as the component's catch block sees it: fulfilled,
   * rejected with an Error (its message), or rejected with some other value.
   */
  datatype RemoteOutcome = Fulfilled | RejectedWithError(message: string) | RejectedWithValue

  const FallbackPrefix := "Request failed with status "

  /** The `error` member of an error body, when it is a non-empty string. */
  function ServerMessage(body: Option<Json>): Option<string> {
    match body
    case Some(JObject(fields)) =>
      if "error" in fields && fields["error"].JString? && fields["error"].s != "" then Some(fields["error"].s) else None
    case _ => None
  }

  /** The message of the Error thrown for a non-ok response. */
  function FailureMessage(response: Response): string {
    match ServerMessage(response.body)
    case Some(m) => m
    case None => FallbackPrefix + Text.Decimal(response.status)
  }

  /** handleResponse: the value the promise resolves with, or why it rejects. */
  function HandleResponse(response: Response): (r: Outcome)
    ensures r.Resolved? ==> response.Ok()
    ensures !response.Ok() ==> r.Rejected? && (r.reason.RequestFailed? <==> response.body != Some(JNull))
    ensures response.Ok() && response.status == 204 ==> r == Resolved(EmptyObject)
    ensures response.Ok() && response.status != 204 ==>
              (r.Resolved? <==> response.body.Some?) && (r.Resolved? ==> r.value == response.body.value)
  {
    if !response.Ok() then
      // An unreadable error body counts as `{}`, which has no `error` member.
      if response.body == Some(JNull) then Rejected(NullBodyAccess)
      else Rejected(RequestFailed(FailureMessage(response)))
    else if response.status == 204 then
      Resolved(EmptyObject)
    else if response.body.Some? then
      Resolved(response.body.value)
    else
      Rejected(BodyParseFailed)
  }

  /** A 204 response resolves with `{}` whatever its body: the body is never read. */
  lemma NoContentIgnoresBody(b1: Option<Json>, b2: Option<Json>)
    ensures HandleResponse(Response(204, b1)) == HandleResponse(Response(204, b2)) == Resolved(EmptyObject)
  {
  }

  /** A non-ok response carrying a non-empty string `error` fails with exactly that message. */
  lemma ServerMessageWins(status: nat, fields: map<string, Json>, m: string)
    requires !(200 <= status <= 299)
    requires "error" in fields && fields["error"] == JString(m) && m != ""
    ensures HandleResponse(Response(status, Some(JObject(fields)))) == Rejected(RequestFailed(m))
  {
  }

  /** Without a server message, the failure message names the status, and the status can be read back from it. */
  lemma FallbackNamesStatus(response: Response)
    requires !response.Ok() && response.body != Some(JNull) && ServerMessage(response.body).None?
    ensures HandleResponse(response).reason.RequestFailed?
    ensures var m := HandleResponse(response).reason.message;
            && |m| > |FallbackPrefix| && m[..|FallbackPrefix|] == FallbackPrefix
            && (forall k :: |FallbackPrefix| <= k < |m| ==> '0' <= m[k] <= '9')
            && Text.DecimalValue(m[|FallbackPrefix|..]) == response.status
  {
    var m := HandleResponse(response).reason.message;
    assert m[|FallbackPrefix|..] == Text.Decimal(response.status);
    Text.DecimalRoundTrip(response.status);
  }
}
