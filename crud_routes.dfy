/**
 * The required-field checks of the CRUD routes of public/server.js. Each
 * handler rejects a request whose required fields are falsy with a 400
 * before it sends any statement to the database; the database is a
 * function from statement to reply, and the handlers report the statements
 * they sent.
 */
module CrudRoutes {
  /** The JSON values a query string or request body field can hold. */
  datatype JsValue = Undefined | Null | Bool(b: bool) | Num(r: real) | Str(s: string) | Compound

  /** JavaScript truthiness: undefined, null, false, 0 and "" are falsy; objects and arrays are truthy. */
  predicate Truthy(v: JsValue)
  {
    match v
    case Undefined => false
    case Null => false
    case Bool(b) => b
    case Num(r) => r != 0.0
    case Str(s) => s != ""
    case Compound => true
  }

  /** The parameterised statements the routes send. */
  datatype Statement =
    | SelectOpportunities(organizationId: JsValue)
    | InsertOpportunity(organizationId: JsValue, opportunity: JsValue)
    | InsertOrganization(name: JsValue)

  /** What `pool.query` yields: the `opportunity` (or `id`) column of the result rows, or a rejection. */
  datatype DbReply = Rows(rows: seq<JsValue>) | DbError

  datatype Body = Opportunities(items: seq<JsValue>) | Success | NewId(id: JsValue) | Error(message: string)

  datatype Reply = Reply(status: int, body: Body)

  /** A handled request: the statements sent, in order, and the reply. */
  datatype Handled = Handled(queries: seq<Statement>, reply: Reply)

  const OrganizationIdRequired := "organization_id is required"
  const OpportunityFieldsRequired := "organization_id and opportunity are required"
  const OrganizationNameRequired := "Organization name is required"
  const FetchOpportunitiesFailed := "Failed to fetch opportunities"
  const AddOpportunityFailed := "Failed to add opportunity"
  const AddOrganizationFailed := "Could not add organization"

  /** GET /api/opportunities?organization_id=… */
  function GetOpportunities(organizationId: JsValue, db: Statement -> DbReply): (h: Handled)
    ensures !Truthy(organizationId) <==> h.reply == Reply(400, Error(OrganizationIdRequired))
    ensures !Truthy(organizationId) <==> h.queries == []
    ensures Truthy(organizationId) ==>
      && h.queries == [SelectOpportunities(organizationId)]
      && (db(SelectOpportunities(organizationId)).DbError? <==> h.reply == Reply(500, Error(FetchOpportunitiesFailed)))
      && (db(SelectOpportunities(organizationId)).Rows? ==>
            h.reply == Reply(200, Opportunities(db(SelectOpportunities(organizationId)).rows)))
  {
    if !Truthy(organizationId) then Handled([], Reply(400, Error(OrganizationIdRequired)))
    else
      var q := SelectOpportunities(organizationId);
      match db(q)
      case DbError => Handled([q], Reply(500, Error(FetchOpportunitiesFailed)))
      case Rows(rows) => Handled([q], Reply(200, Opportunities(rows)))
  }

  /** POST /api/opportunities with body `{organization_id, opportunity}`. */
  function PostOpportunity(organizationId: JsValue, opportunity: JsValue, db: Statement -> DbReply): (h: Handled)
    ensures !(Truthy(organizationId) && Truthy(opportunity)) <==> h.reply == Reply(400, Error(OpportunityFieldsRequired))
    ensures !(Truthy(organizationId) && Truthy(opportunity)) <==> h.queries == []
    ensures Truthy(organizationId) && Truthy(opportunity) ==>
      && h.queries == [InsertOpportunity(organizationId, opportunity)]
      && (h.reply.status == 200 <==> db(InsertOpportunity(organizationId, opportunity)).Rows?)
      && h.reply == (if db(InsertOpportunity(organizationId, opportunity)).Rows? then Reply(200, Success)
                     else Reply(500, Error(AddOpportunityFailed)))
  {
    if !Truthy(organizationId) || !Truthy(opportunity) then Handled([], Reply(400, Error(OpportunityFieldsRequired)))
    else
      var q := InsertOpportunity(organizationId, opportunity);
      match db(q)
      case DbError => Handled([q], Reply(500, Error(AddOpportunityFailed)))
      case Rows(_) => Handled([q], Reply(200, Success))
  }

  /**
   * POST /api/organizations with body `{name}`. `result.rows[0].id` throws on
   * an empty result, which lands in the same 500 as a failed insert.
   */
  function PostOrganization(name: JsValue, db: Statement -> DbReply): (h: Handled)
    ensures !Truthy(name) <==> h.reply == Reply(400, Error(OrganizationNameRequired))
    ensures !Truthy(name) <==> h.queries == []
    ensures Truthy(name) ==>
      && h.queries == [InsertOrganization(name)]
      && (h.reply.status == 200 <==> db(InsertOrganization(name)).Rows? && |db(InsertOrganization(name)).rows| > 0)
      && (h.reply.status == 200 ==> h.reply.body == NewId(db(InsertOrganization(name)).rows[0]))
      && (h.reply.status != 200 ==> h.reply == Reply(500, Error(AddOrganizationFailed)))
  {
    if !Truthy(name) then Handled([], Reply(400, Error(OrganizationNameRequired)))
    else
      var q := InsertOrganization(name);
      match db(q)
      case DbError => Handled([q], Reply(500, Error(AddOrganizationFailed)))
      case Rows(rows) =>
        if |rows| == 0 then Handled([q], Reply(500, Error(AddOrganizationFailed)))
        else Handled([q], Reply(200, NewId(rows[0])))
  }

  // ------------------------------------------------------------------ lemmas

  /** A rejected request is rejected the same way whatever the database holds: validation comes first. */
  lemma ValidationComesFirst(organizationId: JsValue, opportunity: JsValue, name: JsValue,
                             db: Statement -> DbReply, other: Statement -> DbReply)
    ensures !Truthy(organizationId) ==> GetOpportunities(organizationId, db) == GetOpportunities(organizationId, other)
    ensures !(Truthy(organizationId) && Truthy(opportunity)) ==>
      PostOpportunity(organizationId, opportunity, db) == PostOpportunity(organizationId, opportunity, other)
    ensures !Truthy(name) ==> PostOrganization(name, db) == PostOrganization(name, other)
  {
  }
}
