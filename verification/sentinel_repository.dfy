/**
 The Sentinel repository: every operation first exchanges the client
 credentials for a token, then issues one management request and classifies
 the reply. The upstream is a function from request to reply, so an operation
 is the pure composition of the two exchanges, and its result records the
 requests it sent.

 Only `HTTPStatusError` (a reply outside 2xx) is caught anywhere in the
 repository; transport failures always propagate.
 */
module SentinelRepository {
  import opened Base
  import opened Http

  /** The identifier of an upstream rule: the hex SHA-1 digest of the rule's
      name. The digest is kept symbolic: two ids are equal exactly when the
      names are. */
  datatype RuleId = Sha1Hex(name: string)

  datatype Request =
    | TokenRequest                                 // POST .../oauth2/v2.0/token
    | ListAlertRules                               // GET  .../alertRules
    | GetAlertRule(id: RuleId)                     // GET  .../alertRules/{id}
    | PutAlertRule(id: RuleId, payload: Json)      // PUT  .../alertRules/{id}
    | PutAutomationRule(id: RuleId, payload: Json) // PUT  .../automationRules/{id}
    | DeleteAlertRule(id: RuleId)                  // DELETE .../alertRules/{id}

  /** What the management endpoint answers to each request. */
  type Upstream = Request -> Reply

  /** The outcome of an operation, with the requests it sent in order. */
  datatype Call<+T> = Call(outcome: Outcome<T>, sent: seq<Request>)

  /** The phrases the conflict handlers look for in a 409 body. */
  const RECENTLY_DELETED: string := "was recently deleted"
  const ETAG_MISMATCH: string := "Etag does not match"

  /** A reply with a 2xx status whose body is a JSON object. */
  predicate SuccessObject(reply: Reply) {
    reply.Reply? && IsSuccess(reply.status) && reply.body.Some? && reply.body.value.JObj?
  }

  // ---------------------------------------------------------------------------
  // Reply classification, one function per operation

  /** The entry `key` of a 2xx reply's JSON object body; every other reply
      raises. */
  function ClassifyEntry(reply: Reply, key: string): (r: Outcome<Json>)
    ensures r.Success? || r.Raise?
    ensures r.Success? <==> SuccessObject(reply) && key in reply.body.value.fields
    ensures r.Success? ==> r.value == reply.body.value.fields[key]
    ensures reply.TransportFailure? ==> r == Raise(TransportError)
    ensures IsErrorStatus(reply) ==> r == Raise(HttpStatusError(reply.status))
  {
    if !reply.Reply? || !IsSuccess(reply.status) then Raise(FaultOf(reply))
    else if SuccessObject(reply) && key in reply.body.value.fields then
      Success(reply.body.value.fields[key])
    else Raise(BadBody)
  }

  /** `authenticate`: the token is the body's "access_token". */
  function ClassifyToken(reply: Reply): Outcome<Json> {
    ClassifyEntry(reply, "access_token")
  }

  /** `get_analytics_rules`: the body's "value" list. */
  function ClassifyRuleList(reply: Reply): Outcome<Json> {
    ClassifyEntry(reply, "value")
  }

  /** How `create_or_update_scheduled_alert_rule` reads a 409 body; the result
      only chooses the log line, the conflict is tolerated either way. */
  function ScheduledConflict(text: string): (c: Conflict)
    ensures c == RecentlyDeleted <==> Occurs(RECENTLY_DELETED, text)
    ensures c == EtagMismatch <==> !Occurs(RECENTLY_DELETED, text) && Occurs(ETAG_MISMATCH, text)
    ensures c != AlreadyExists
  {
    if Occurs(RECENTLY_DELETED, text) then RecentlyDeleted
    else if Occurs(ETAG_MISMATCH, text) then EtagMismatch
    else UnknownConflict
  }

  /** `create_or_update_scheduled_alert_rule`: every 409 is tolerated, every
      other failure raised. */
  function ClassifyScheduledUpsert(reply: Reply): (r: Outcome<()>)
    ensures r.Success? <==> reply.Reply? && IsSuccess(reply.status)
    ensures r.Swallowed? <==> HasStatus(reply, 409)
    ensures r.Swallowed? ==> r.conflict == ScheduledConflict(reply.text)
    ensures r.Raise? <==> reply.TransportFailure? || (IsErrorStatus(reply) && reply.status != 409)
    ensures r.Raise? ==> r.fault == FaultOf(reply)
  {
    match reply
    case TransportFailure => Raise(TransportError)
    case Reply(status, text, _) =>
      if IsSuccess(status) then Success(())
      else if status == 409 then Swallowed(ScheduledConflict(text))
      else Raise(HttpStatusError(status))
  }

  /** `create_or_update_automation_rule` as written. On a 409 whose body says
      the rule was recently deleted, the log line reads `.displayName` off the
      payload's "properties" entry, which is a plain dictionary; the
      `AttributeError` this raises leaves the handler instead of the conflict
      being tolerated. */
  function ClassifyAutomationUpsertAsWritten(reply: Reply): (r: Outcome<()>)
    ensures r.Success? <==> reply.Reply? && IsSuccess(reply.status)
    ensures r.Swallowed? <==> HasStatus(reply, 409) && !Occurs(RECENTLY_DELETED, reply.text)
    ensures r.Raise? && reply.Reply? && reply.status == 409 ==> r.fault == AttributeMissing
  {
    match reply
    case TransportFailure => Raise(TransportError)
    case Reply(status, text, _) =>
      if IsSuccess(status) then Success(())
      else if status == 409 then
        if Occurs(RECENTLY_DELETED, text) then Raise(AttributeMissing) else Swallowed(UnknownConflict)
      else Raise(HttpStatusError(status))
  }

  /** `create_or_update_automation_rule` as its branches intend: every 409 is
      logged and tolerated, every other failure raised. */
  function ClassifyAutomationUpsert(reply: Reply): (r: Outcome<()>)
    ensures r.Success? <==> reply.Reply? && IsSuccess(reply.status)
    ensures r.Swallowed? <==> HasStatus(reply, 409)
    ensures r.Swallowed? ==> (r.conflict == RecentlyDeleted <==> Occurs(RECENTLY_DELETED, reply.text))
    ensures r.Raise? <==> reply.TransportFailure? || (IsErrorStatus(reply) && reply.status != 409)
    ensures r.Raise? ==> r.fault == FaultOf(reply)
  {
    match reply
    case TransportFailure => Raise(TransportError)
    case Reply(status, text, _) =>
      if IsSuccess(status) then Success(())
      else if status == 409 then
        if Occurs(RECENTLY_DELETED, text) then Swallowed(RecentlyDeleted) else Swallowed(UnknownConflict)
      else Raise(HttpStatusError(status))
  }

  /** `remove_scheduled_alert_rule`: every failure is raised, 404 included. */
  function ClassifyRemove(reply: Reply): (r: Outcome<()>)
    ensures r.Success? || r.Raise?
    ensures r.Success? <==> reply.Reply? && IsSuccess(reply.status)
    ensures r.Raise? ==> r.fault == FaultOf(reply)
  {
    if reply.Reply? && IsSuccess(reply.status) then Success(()) else Raise(FaultOf(reply))
  }

  // ---------------------------------------------------------------------------
  // Operations

  /** `authenticate`. */
  function Authenticate(upstream: Upstream): (c: Call<Json>)
    ensures c.sent == [TokenRequest]
    ensures c.outcome.Success? || c.outcome.Raise?
  {
    Call(ClassifyToken(upstream(TokenRequest)), [TokenRequest])
  }

  /** One authenticated operation: the token exchange, then, only if it
      produced a token, the request itself. */
  function Authenticated<T>(upstream: Upstream, request: Request, classify: Reply -> Outcome<T>): (c: Call<T>)
    ensures |c.sent| >= 1 && c.sent[0] == TokenRequest
    ensures c.outcome.Raise? || c.outcome == classify(upstream(request))
  {
    var auth := Authenticate(upstream);
    if auth.outcome.Success? then Call(classify(upstream(request)), [TokenRequest, request])
    else Call(Raise(auth.outcome.fault), [TokenRequest])
  }

  function GetAnalyticsRules(upstream: Upstream): Call<Json> {
    Authenticated(upstream, ListAlertRules, ClassifyRuleList)
  }

  function GetAnalyticsRule(upstream: Upstream, id: RuleId): Call<Json> {
    Authenticated(upstream, GetAlertRule(id), ClassifyLookup)
  }

  function UpsertScheduledAlertRule(upstream: Upstream, id: RuleId, payload: Json): Call<()> {
    Authenticated(upstream, PutAlertRule(id, payload), ClassifyScheduledUpsert)
  }

  function UpsertAutomationRule(upstream: Upstream, id: RuleId, payload: Json): Call<()> {
    Authenticated(upstream, PutAutomationRule(id, payload), ClassifyAutomationUpsert)
  }

  function UpsertAutomationRuleAsWritten(upstream: Upstream, id: RuleId, payload: Json): Call<()> {
    Authenticated(upstream, PutAutomationRule(id, payload), ClassifyAutomationUpsertAsWritten)
  }

  function RemoveScheduledAlertRule(upstream: Upstream, id: RuleId): Call<()> {
    Authenticated(upstream, DeleteAlertRule(id), ClassifyRemove)
  }

  // ---------------------------------------------------------------------------
  // Properties

  /** Every operation authenticates first. If that fails, its error is the
      operation's error and the management request is never sent; otherwise
      exactly that request follows, and its reply alone decides the outcome. */
  lemma AuthenticatesFirst<T>(upstream: Upstream, request: Request, classify: Reply -> Outcome<T>)
    requires request != TokenRequest
    ensures var c := Authenticated(upstream, request, classify);
      && (ClassifyToken(upstream(TokenRequest)).Raise? ==>
            c == Call(Raise(ClassifyToken(upstream(TokenRequest)).fault), [TokenRequest]))
      && (ClassifyToken(upstream(TokenRequest)).Success? ==>
            c == Call(classify(upstream(request)), [TokenRequest, request]))
      && (request in c.sent <==> ClassifyToken(upstream(TokenRequest)).Success?)
  {
  }

  /** A missing rule (404) is reported as absent by a lookup but raised by a
      removal. */
  lemma NotFoundIsAbsentOnGetButRaisedOnRemove(reply: Reply)
    requires HasStatus(reply, 404)
    ensures ClassifyLookup(reply) == Absent
    ensures ClassifyRemove(reply) == Raise(HttpStatusError(404))
  {
  }

  /** Whatever its body says, a 409 never makes the scheduled upsert raise. */
  lemma ScheduledUpsertToleratesEveryConflict(text: string, body: Option<Json>)
    ensures ClassifyScheduledUpsert(Reply(409, text, body)).Returned()
    ensures ClassifyScheduledUpsert(Reply(409, text, body))
         == Swallowed(if Occurs(RECENTLY_DELETED, text) then RecentlyDeleted
                      else if Occurs(ETAG_MISMATCH, text) then EtagMismatch
                      else UnknownConflict)
  {
  }

  /** The two automation classifiers differ exactly on a 409 that mentions a
      recent deletion: as written it raises, as intended it is tolerated. */
  lemma AutomationConflictDiscrepancy(reply: Reply)
    ensures ClassifyAutomationUpsertAsWritten(reply) != ClassifyAutomationUpsert(reply)
        <==> HasStatus(reply, 409) && Occurs(RECENTLY_DELETED, reply.text)
  {
  }

  /** A concrete reply that shows it: a 409 whose body reports the deletion. */
  lemma {:induction false} RecentlyDeletedConflictEscapes(before: string, after: string)
    ensures var reply := Reply(409, before + RECENTLY_DELETED + after, None);
      && ClassifyAutomationUpsertAsWritten(reply) == Raise(AttributeMissing)
      && ClassifyAutomationUpsert(reply) == Swallowed(RecentlyDeleted)
  {
    OccursInside(before, RECENTLY_DELETED, after);
  }
}
