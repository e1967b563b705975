/**
 * The serverless handler behind `POST /api/submit-lead` (api/submit-lead.ts).
 *
 * The handler is a total function of the request, of `JSON.parse` (given as a
 * parameter: `None` is a parse that throws) and of what the database insert
 * reports (an oracle). It returns the one response it sends together with the
 * insert calls it made.
 */
module SubmitLead {
  import opened Wrappers
  import opened JsValues

  datatype Request = Request(verb: string, body: JsValue)

  /** The row handed to `supabase.from("leads").insert([...])`. */
  datatype LeadRow = LeadRow(
    business_name: JsValue,
    email: JsValue,
    phone: JsValue,
    service_category: JsValue,
    source: JsValue)

  datatype InsertCall = InsertCall(table: string, rows: seq<LeadRow>)

  /** What the awaited insert does: report success, report an error object, or reject. */
  datatype StoreOutcome = Stored | StoreError(detail: string) | StoreThrew

  datatype Response = Response(status: int, body: JsValue)

  /** Everything the handler does: the single response and the inserts it attempted. */
  datatype Outcome = Outcome(response: Response, inserts: seq<InsertCall>)

  /** `JSON.parse`: the decoded value, or `None` when it throws on malformed text. */
  type JsonParser = string -> Option<JsValue>

  const LeadsTable := "leads"

  function ErrorBody(message: string): JsValue {
    Obj(map["error" := Str(message)])
  }

  const SuccessBody := Obj(map["success" := Bool(true)])

  const MethodNotAllowed := Response(405, ErrorBody("Method not allowed"))
  const MissingFields := Response(400, ErrorBody("Missing required fields"))
  const InsertFailed := Response(500, ErrorBody("Database insert failed"))
  const ServerError := Response(500, ErrorBody("Server error"))
  const Success := Response(200, SuccessBody)

  /** A string body is JSON-decoded; any other body is used as it is. */
  function DecodeBody(body: JsValue, parse: JsonParser): (r: Option<JsValue>)
    ensures !body.Str? ==> r == Some(body)
    ensures body.Str? ==> r == parse(body.s)
  {
    if body.Str? then parse(body.s) else Some(body)
  }

  /** The row built from a destructured body: `phone` and `source` fall back to `null`. */
  function BuildRow(data: JsValue): (row: LeadRow)
    requires !Nullish(data)
    ensures row.business_name == Property(data, "business_name")
    ensures row.email == Property(data, "email")
    ensures row.service_category == Property(data, "service_category")
    ensures Truthy(Property(data, "phone")) ==> row.phone == Property(data, "phone")
    ensures !Truthy(Property(data, "phone")) ==> row.phone == Null
    ensures Truthy(Property(data, "source")) ==> row.source == Property(data, "source")
    ensures !Truthy(Property(data, "source")) ==> row.source == Null
  {
    LeadRow(
      Property(data, "business_name"),
      Property(data, "email"),
      Or(Property(data, "phone"), Null),
      Property(data, "service_category"),
      Or(Property(data, "source"), Null))
  }

  /** True when the decoded body passes the minimal server-side validation. */
  function HasRequiredFields(data: JsValue): (ok: bool)
    requires !Nullish(data)
    ensures ok <==> data.Obj? && "business_name" in data.fields && "email" in data.fields
                    && Truthy(data.fields["business_name"]) && Truthy(data.fields["email"])
  {
    Truthy(Property(data, "business_name")) && Truthy(Property(data, "email"))
  }

  /** The request handler. */
  function Handle(req: Request, parse: JsonParser, store: StoreOutcome): (o: Outcome)
    ensures o.response.status in {200, 400, 405, 500}
    ensures o.response.status == 405 <==> req.verb != "POST"
    ensures |o.inserts| <= 1
    ensures o.inserts != [] ==> o.inserts[0].table == LeadsTable && |o.inserts[0].rows| == 1
    ensures o.response.status == 200 ==> o.inserts != [] && store.Stored?
  {
    if req.verb != "POST" then
      Outcome(MethodNotAllowed, [])
    else
      match DecodeBody(req.body, parse)
      case None => Outcome(ServerError, [])
      case Some(data) =>
        if Nullish(data) then
          // destructuring null or undefined throws, and the catch answers
          Outcome(ServerError, [])
        else if !HasRequiredFields(data) then
          Outcome(MissingFields, [])
        else
          var call := InsertCall(LeadsTable, [BuildRow(data)]);
          match store
          case Stored => Outcome(Success, [call])
          case StoreError(_) => Outcome(InsertFailed, [call])
          case StoreThrew => Outcome(ServerError, [call])
  }

  /** The body decodes, and to a value that destructuring accepts (not null or undefined). */
  predicate DecodesToRecord(req: Request, parse: JsonParser) {
    var d := DecodeBody(req.body, parse);
    d.Some? && !Nullish(d.value)
  }

  // ---------------------------------------------------------------------------
  // Properties of the handler
  // ---------------------------------------------------------------------------

  /** Any method other than POST is refused with 405, nothing is inserted, and the body plays no part. */
  lemma NonPostRejected(verb: string, body: JsValue, other: JsValue, parse: JsonParser,
                        parse': JsonParser, store: StoreOutcome, store': StoreOutcome)
    requires verb != "POST"
    ensures Handle(Request(verb, body), parse, store) == Outcome(MethodNotAllowed, [])
    ensures Handle(Request(verb, body), parse, store) == Handle(Request(verb, other), parse', store')
  {
  }

  /** An unparsable string body, or one that decodes to null or undefined, is a 500 "Server error" with no insert. */
  lemma UndecodableBodyIsServerError(req: Request, parse: JsonParser, store: StoreOutcome)
    requires req.verb == "POST"
    requires !DecodesToRecord(req, parse)
    ensures Handle(req, parse, store) == Outcome(ServerError, [])
  {
  }

  /** A falsy `business_name` or `email` is a 400 "Missing required fields" with no insert. */
  lemma MissingFieldsRejected(req: Request, parse: JsonParser, store: StoreOutcome)
    requires req.verb == "POST" && DecodesToRecord(req, parse)
    requires var data := DecodeBody(req.body, parse).value;
      !Truthy(Property(data, "business_name")) || !Truthy(Property(data, "email"))
    ensures Handle(req, parse, store) == Outcome(MissingFields, [])
  {
  }

  /**
   * A record with truthy `business_name` and `email` always reaches the insert:
   * exactly one row goes to "leads", with the fields passed through and `phone`
   * and `source` defaulted to null. No format check is made on the email.
   */
  lemma ValidRequestInsertsOneRow(req: Request, parse: JsonParser, store: StoreOutcome)
    requires req.verb == "POST" && DecodesToRecord(req, parse)
    requires var data := DecodeBody(req.body, parse).value;
      Truthy(Property(data, "business_name")) && Truthy(Property(data, "email"))
    ensures var data := DecodeBody(req.body, parse).value;
      Handle(req, parse, store).inserts == [InsertCall(LeadsTable, [BuildRow(data)])]
  {
  }

  /** Whatever the database's error says, the caller gets the same generic 500 and nothing of the detail. */
  lemma InsertErrorHidesDetail(req: Request, parse: JsonParser, detail: string, detail': string)
    requires req.verb == "POST" && DecodesToRecord(req, parse)
    requires HasRequiredFields(DecodeBody(req.body, parse).value)
    ensures Handle(req, parse, StoreError(detail)).response == InsertFailed
    ensures Handle(req, parse, StoreError(detail)) == Handle(req, parse, StoreError(detail'))
  {
  }

  /** The handler answers 200 `{success: true}` exactly when a valid POST's insert succeeds. */
  lemma SuccessExactly(req: Request, parse: JsonParser, store: StoreOutcome)
    ensures Handle(req, parse, store).response == Success
        <==> req.verb == "POST" && DecodesToRecord(req, parse)
             && HasRequiredFields(DecodeBody(req.body, parse).value) && store.Stored?
  {
  }

  /** An insert is attempted exactly when a POST decodes to a record with both required fields. */
  lemma InsertAttemptedExactly(req: Request, parse: JsonParser, store: StoreOutcome)
    ensures Handle(req, parse, store).inserts != []
        <==> req.verb == "POST" && DecodesToRecord(req, parse)
             && HasRequiredFields(DecodeBody(req.body, parse).value)
  {
  }

  /** An insert that rejects is caught by the outer handler: 500 "Server error", after the one attempt. */
  lemma InsertRejectionIsServerError(req: Request, parse: JsonParser)
    requires req.verb == "POST" && DecodesToRecord(req, parse)
    requires HasRequiredFields(DecodeBody(req.body, parse).value)
    ensures Handle(req, parse, StoreThrew).response == ServerError
    ensures |Handle(req, parse, StoreThrew).inserts| == 1
  {
  }

  // ---------------------------------------------------------------------------
  // Worked scenarios
  // ---------------------------------------------------------------------------

  const JoeEmail := Str("joe@example.com")

  /** POST {business_name: "Joe's Plumbing", email: "joe@example.com"}: one row with null phone and source, then 200. */
  lemma ScenarioValidLead(parse: JsonParser)
    ensures var req := Request("POST", Obj(map["business_name" := Str("Joe's Plumbing"), "email" := JoeEmail]));
      var o := Handle(req, parse, Stored);
      o.response == Success
      && o.inserts == [InsertCall("leads",
           [LeadRow(Str("Joe's Plumbing"), JoeEmail, Null, Undefined, Null)])]
  {
    var fields := map["business_name" := Str("Joe's Plumbing"), "email" := JoeEmail];
    assert "phone" !in fields && "source" !in fields && "service_category" !in fields;
  }

  /** POST {email: "joe@example.com"}: 400 and no insert, whatever the database would have said. */
  lemma ScenarioMissingBusinessName(parse: JsonParser, store: StoreOutcome)
    ensures Handle(Request("POST", Obj(map["email" := JoeEmail])), parse, store)
         == Outcome(MissingFields, [])
  {
    var fields := map["email" := JoeEmail];
    assert "business_name" !in fields;
  }

  /** GET: 405 `{error: "Method not allowed"}`. */
  lemma ScenarioGet(body: JsValue, parse: JsonParser, store: StoreOutcome)
    ensures Handle(Request("GET", body), parse, store).response
         == Response(405, Obj(map["error" := Str("Method not allowed")]))
  {
  }
}
