/**
 * What `_shared.ts` gives every handler: the JSON response builder, the JWT
 * subject lookup, and the shapes of the bodies the handlers send back. A
 * handler either returns a response or throws (an uncaught error becomes a
 * failed Lambda invocation).
 */
module Shared {
  import opened Wrappers
  import opened Text
  import opened Db

  /** A thrown `Error` with its optional `code` property. */
  datatype Error = Error(message: string, code: Option<string>)

  const MISSING_SUB: Error := Error("Missing JWT sub", None)

  /** The ValidationException a QueryCommand raises for a BETWEEN with reversed bounds. */
  const BETWEEN_REVERSED: Error :=
    Error("Invalid KeyConditionExpression: The BETWEEN operator requires upper bound to be greater than or equal to lower bound", None)

  /** The error a PutCommand raises when its ConditionExpression fails. */
  const CONDITION_FAILED: Error := Error("The conditional request failed", None)

  /** A hand-washing event as the API returns it. */
  datatype EventView = EventView(
    familyId: Option<string>,
    eventId: Option<string>,
    atMs: Option<int>,
    createdBy: Option<string>,
    mode: Option<string>,
    durationSec: Option<int>,
    note: Option<string>)

  /** The projection both event handlers answer with. */
  function ViewOf(it: Item): EventView {
    EventView(it.familyId, it.eventId, it.atMs, it.createdBy, it.mode, it.durationSec, it.note)
  }

  /** One entry of a family's member list. */
  datatype MemberView = MemberView(sub: Option<string>, role: Option<string>, joinedAt: Option<string>, displayName: Option<string>)

  /** One entry of a user's family list. */
  datatype FamilyView = FamilyView(familyId: Option<string>, role: string, joinedAt: Option<string>, name: string)

  /** The JSON bodies the handlers send, one variant per shape. */
  datatype Body =
    | Failure(message: string)                                 // { ok: false, message }
    | Success                                                  // { ok: true }
    | Done(message: string)                                    // { ok: true, message }
    | FamilyCreated(familyId: string, name: string, inviteCode: string)
    | Joined(familyId: string)
    | ProfileSaved(displayName: string)
    | EventCreated(event: EventView)
    | Events(events: seq<EventView>)
    | Members(isOwner: Option<bool>, members: seq<MemberView>)
    | Families(families: seq<FamilyView>)
    | Identity(sub: Option<string>, email: Option<string>, username: Option<string>,
               iss: Option<string>, aud: Option<string>, families: seq<FamilyView>)
    | PushSent(sent: nat, failed: Option<nat>, notice: Option<string>)   // { ok: true, sent, failed?, message? }

  datatype Response = Response(statusCode: int, headers: map<string, string>, body: Body)

  datatype Outcome = Returned(response: Response) | Threw(error: Error) {
    predicate Is(status: int) {
      Returned? && response.statusCode == status
    }
  }

  /** A handler's result together with the table it leaves behind. */
  datatype Step = Step(out: Outcome, table: Table)

  /** `json(statusCode, body)`: exactly that status, a JSON content type and that body. */
  function Json(statusCode: int, body: Body): (r: Response)
    ensures r.statusCode == statusCode && r.body == body
    ensures r.headers.Keys == {"content-type"} && r.headers["content-type"] == "application/json"
  {
    Response(statusCode, map["content-type" := "application/json"], body)
  }

  function Fail(statusCode: int, message: string): Outcome {
    Returned(Json(statusCode, Failure(message)))
  }

  function Succeed(body: Body): Outcome {
    Returned(Json(200, body))
  }

  /** `getSub(event)`: the `sub` claim when it is a non-empty string, otherwise a thrown error. */
  function GetSub(claim: Option<string>): (r: Result<string, Error>)
    ensures r.Ok? <==> Truthy(claim)
    ensures r.Ok? ==> r.value == claim.value && r.value != ""
    ensures r.Err? ==> r.error == MISSING_SUB
  {
    if Truthy(claim) then Ok(claim.value) else Err(MISSING_SUB)
  }

  /** `String(field ?? "").trim()` for a request field. */
  function Field(o: Option<string>): string {
    Trim(o.GetOr(""))
  }

  /**
   * The catch block of the handlers that catch: a FORBIDDEN error becomes 403,
   * any other error 500 with its message.
   */
  function Caught(e: Error): (out: Outcome)
    ensures e.code == Some("FORBIDDEN") ==> out == Fail(403, "not a family member")
    ensures e.code != Some("FORBIDDEN") ==> out == Fail(500, e.message)
  {
    if e.code == Some("FORBIDDEN") then Fail(403, "not a family member") else Fail(500, e.message)
  }
}
