/**
 * The request handling of the apology server: the shared-secret check that
 * guards the admin routes, the validation and normalisation of a
 * `POST /api/send` body, and the store of apology submissions that the
 * three `/api` routes read and append to.
 *
 * The document database is abstracted to a sequence of records with an id
 * supply; whether a save or a query succeeds is a parameter, and the
 * creation time is passed in by the caller.
 */
module Server {
  import opened Wrappers
  import opened JsString

  // ---------------------------------------------------------------------
  // Admin authorisation
  // ---------------------------------------------------------------------

  /** The two places an admin token may come from. */
  datatype AdminRequest = AdminRequest(header: Value, query: Value)  // x-admin-token, ?admin_token

  /** `req.headers["x-admin-token"] || req.query.admin_token || ""`. */
  function SelectToken(req: AdminRequest): (token: string)
    ensures token != "" <==> Truthy(req.header) || Truthy(req.query)
    ensures Truthy(req.header) ==> token == req.header.s
    ensures !Truthy(req.header) && token != "" ==> Str(token) == req.query
  {
    if Truthy(req.header) then req.header.s
    else if Truthy(req.query) then req.query.s
    else ""
  }

  /**
   * `adminAuth`: the selected token and the configured secret are both
   * non-empty and equal. A non-empty header token shadows the query token.
   */
  function AdminAuth(req: AdminRequest, secret: Value): (granted: bool)
    ensures granted <==>
      Truthy(secret) && (if Truthy(req.header) then req.header == secret else req.query == secret)
  {
    var token := SelectToken(req);
    token != "" && Truthy(secret) && token == secret.s
  }

  /** Without a configured secret nobody is admitted. */
  lemma NoSecretNoAccess(req: AdminRequest, secret: Value)
    requires !Truthy(secret)
    ensures !AdminAuth(req, secret)
  {
  }

  /** Once a header token is given, the query token makes no difference. */
  lemma HeaderShadowsQuery(header: Value, q1: Value, q2: Value, secret: Value)
    requires Truthy(header)
    ensures AdminAuth(AdminRequest(header, q1), secret) == AdminAuth(AdminRequest(header, q2), secret)
  {
  }

  // ---------------------------------------------------------------------
  // Send-request validation and normalisation
  // ---------------------------------------------------------------------

  const DefaultTone := "sincere"

  /** The fields of a `POST /api/send` JSON body. */
  datatype SendBody = SendBody(senderName: Value, recipientEmail: Value, tone: Value, message: Value)

  /** `req.body || {}`: a missing body reads as one with every field undefined. */
  function Fields(body: Option<SendBody>): (b: SendBody)
    ensures body.None? ==> b == SendBody(Undefined, Undefined, Undefined, Undefined)
    ensures body.Some? ==> b == body.value
  {
    if body.Some? then body.value else SendBody(Undefined, Undefined, Undefined, Undefined)
  }

  /** `v ? String(v).trim() : fallback`. */
  function TrimOr(v: Value, fallback: string): (t: string)
    ensures Truthy(v) ==> IsTrimOf(v.s, t) && NoEdgeSpace(t)
    ensures !Truthy(v) ==> t == fallback
  {
    if Truthy(v) then Trim(v.s) else fallback
  }

  /** The four fields a new document is built from. */
  datatype Draft = Draft(senderName: string, recipientEmail: string, tone: string, message: string)

  /**
   * The schema's `required: true` on `senderName` and `recipientEmail`: a
   * required string field holding "" fails validation, so `save` rejects it.
   */
  predicate MeetsSchema(d: Draft)
    ensures MeetsSchema(d) <==> Truthy(Str(d.senderName)) && Truthy(Str(d.recipientEmail))
  {
    d.senderName != "" && d.recipientEmail != ""
  }

  /**
   * `d` is what a valid body `b` is stored as: names trimmed, a truthy tone
   * or message trimmed, a falsy one replaced by its default; no stored field
   * starts or ends with whitespace.
   */
  ghost predicate NormalizedFrom(b: SendBody, d: Draft) {
    && b.senderName.Str? && IsTrimOf(b.senderName.s, d.senderName)
    && b.recipientEmail.Str? && IsTrimOf(b.recipientEmail.s, d.recipientEmail)
    && (Truthy(b.tone) ==> IsTrimOf(b.tone.s, d.tone))
    && (!Truthy(b.tone) ==> d.tone == DefaultTone)
    && (Truthy(b.message) ==> IsTrimOf(b.message.s, d.message))
    && (!Truthy(b.message) ==> d.message == "")
    && NoEdgeSpace(d.senderName) && NoEdgeSpace(d.recipientEmail)
    && NoEdgeSpace(d.tone) && NoEdgeSpace(d.message)
  }

  /**
   * The early 400 return and the construction of the document: `None` when
   * `senderName` or `recipientEmail` is falsy (tested before trimming),
   * otherwise every field trimmed, with "sincere" for a falsy tone and ""
   * for a falsy message.
   */
  function Normalize(body: Option<SendBody>): (r: Option<Draft>)
    ensures r.None? <==> !Truthy(Fields(body).senderName) || !Truthy(Fields(body).recipientEmail)
    ensures r.Some? ==> NormalizedFrom(Fields(body), r.value)
  {
    var b := Fields(body);
    if !Truthy(b.senderName) || !Truthy(b.recipientEmail) then None
    else
      assert NoEdgeSpace(DefaultTone);
      Some(Draft(
        Trim(b.senderName.s),
        Trim(b.recipientEmail.s),
        TrimOr(b.tone, DefaultTone),
        TrimOr(b.message, "")))
  }

  /** A string made only of whitespace trims to the empty string. */
  lemma TrimAllSpace(s: string)
    requires AllSpace(s)
    ensures Trim(s) == ""
  {
    assert IsTrimAt(s, "", 0) by {
      assert s[..0] == "" && s[0..0] == "" && s[0..] == s;
    }
    TrimIsUnique(s, "");
  }

  /** A whitespace-only tone is truthy, so it is stored as "", not as "sincere". */
  lemma WhitespaceToneStoredEmpty(body: Option<SendBody>)
    requires Normalize(body).Some?
    requires Fields(body).tone.Str? && Fields(body).tone.s != "" && AllSpace(Fields(body).tone.s)
    ensures Normalize(body).value.tone == ""
  {
    TrimAllSpace(Fields(body).tone.s);
  }

  /**
   * The route's required-field check sees the untrimmed values: a blank name
   * passes it, the document is built with `senderName` "", and the schema's
   * `required` check then refuses that document when it is saved.
   */
  lemma BlankSenderPassesValidation(name: string, email: string)
    requires name != "" && AllSpace(name) && email != ""
    ensures Normalize(Some(SendBody(Str(name), Str(email), Undefined, Undefined)))
            == Some(Draft("", Trim(email), DefaultTone, ""))
    ensures !MeetsSchema(Draft("", Trim(email), DefaultTone, ""))
  {
    TrimAllSpace(name);
  }

  /** A stored draft that is sent again (with an explicit tone and message) is stored unchanged. */
  lemma ResubmitStable(d: Draft)
    requires d.senderName != "" && d.recipientEmail != "" && d.tone != "" && d.message != ""
    requires NoEdgeSpace(d.senderName) && NoEdgeSpace(d.recipientEmail)
    requires NoEdgeSpace(d.tone) && NoEdgeSpace(d.message)
    ensures Normalize(Some(SendBody(Str(d.senderName), Str(d.recipientEmail), Str(d.tone), Str(d.message))))
            == Some(d)
  {
    var b := SendBody(Str(d.senderName), Str(d.recipientEmail), Str(d.tone), Str(d.message));
    NormalizeAllTruthy(b);
    TrimOfTrimmed(d.senderName);
    TrimOfTrimmed(d.recipientEmail);
    TrimOfTrimmed(d.tone);
    TrimOfTrimmed(d.message);
  }

  lemma NormalizeAllTruthy(b: SendBody)
    requires Truthy(b.senderName) && Truthy(b.recipientEmail) && Truthy(b.tone) && Truthy(b.message)
    ensures Normalize(Some(b)) == Some(Draft(Trim(b.senderName.s), Trim(b.recipientEmail.s), Trim(b.tone.s), Trim(b.message.s)))
  {
  }

  lemma TrimOfTrimmed(s: string)
    requires NoEdgeSpace(s)
    ensures Trim(s) == s
  {
    assert IsTrimAt(s, s, 0) by {
      assert s[..0] == "" && s[|s|..] == "";
    }
    TrimIsUnique(s, s);
  }

  // ---------------------------------------------------------------------
  // The store and the routes
  // ---------------------------------------------------------------------

  /** A stored apology document. */
  datatype Apology = Apology(
    id: nat, senderName: string, recipientEmail: string, tone: string, message: string, createdAt: int)

  function Record(id: nat, d: Draft, createdAt: int): (a: Apology)
    ensures a.id == id && a.createdAt == createdAt
    ensures a.senderName == d.senderName && a.recipientEmail == d.recipientEmail
    ensures a.tone == d.tone && a.message == d.message
  {
    Apology(id, d.senderName, d.recipientEmail, d.tone, d.message, createdAt)
  }

  /** `Apology.findById(id)`: the record with that id, if any. */
  function FindById(records: seq<Apology>, id: nat): (r: Option<Apology>)
    ensures r.Some? ==> r.value in records && r.value.id == id
    ensures r.None? <==> forall k :: 0 <= k < |records| ==> records[k].id != id
  {
    if records == [] then None
    else if records[0].id == id then Some(records[0])
    else FindById(records[1..], id)
  }

  /** The answer to `POST /api/send`. */
  datatype SendResponse =
    | BadRequest        // 400 { error: "senderName and recipientEmail are required" }
    | Saved(id: nat)    // 200 { ok: true, id }
    | SaveFailed        // 500 { error: "Failed to save submission" }

  /** The answer to one of the two admin routes. */
  datatype AdminResponse<T> =
    | Unauthorized      // 401
    | NotFound          // 404
    | FetchFailed       // 500
    | Json(body: T)     // 200

  function SendStatus(r: SendResponse): (code: int)
    ensures code == 400 <==> r.BadRequest?
    ensures code == 200 <==> r.Saved?
    ensures code == 500 <==> r.SaveFailed?
  {
    match r
    case BadRequest => 400
    case Saved(_) => 200
    case SaveFailed => 500
  }

  function AdminStatus<T>(r: AdminResponse<T>): (code: int)
    ensures code == 401 <==> r.Unauthorized?
    ensures code == 404 <==> r.NotFound?
    ensures code == 500 <==> r.FetchFailed?
    ensures code == 200 <==> r.Json?
  {
    match r
    case Unauthorized => 401
    case NotFound => 404
    case FetchFailed => 500
    case Json(_) => 200
  }

  /** Every id is below `supply`, and no two records share one. */
  ghost predicate IdsFrom(records: seq<Apology>, supply: nat) {
    && (forall i :: 0 <= i < |records| ==> records[i].id < supply)
    && (forall i, j :: 0 <= i < j < |records| ==> records[i].id != records[j].id)
  }

  /** Every stored record has the schema's required fields non-empty. */
  ghost predicate RequiredFilled(records: seq<Apology>) {
    forall i :: 0 <= i < |records| ==> records[i].senderName != "" && records[i].recipientEmail != ""
  }

  /**
   * Appending a record that takes the next id and fills the required fields
   * keeps ids distinct and every record filled; the id was unused.
   */
  lemma AppendFresh(records: seq<Apology>, supply: nat, doc: Apology)
    requires IdsFrom(records, supply) && doc.id == supply
    requires RequiredFilled(records) && doc.senderName != "" && doc.recipientEmail != ""
    ensures IdsFrom(records + [doc], supply + 1)
    ensures RequiredFilled(records + [doc])
    ensures FindById(records, doc.id).None?
  {
  }

  /** The `Apology` collection: the submissions in the order they were saved. */
  class ApologyStore {
    var records: seq<Apology>
    var nextId: nat  // the id supply: every id below it may be in use

    /** Every record has its own id, drawn from the supply. */
    ghost predicate Valid()
      reads this
    {
      IdsFrom(records, nextId) && RequiredFilled(records)
    }

    constructor ()
      ensures Valid() && records == []
    {
      records := [];
      nextId := 0;
    }

    /**
     * `POST /api/send`. A falsy `senderName` or `recipientEmail` is answered
     * with 400 before a document exists. Otherwise a document with a fresh
     * id is built. `save` fails when the document breaks the schema's
     * `required` rule or the database write fails (`saveSucceeds` false);
     * then the answer is 500 and nothing is stored. Otherwise exactly that
     * document is appended and its id returned.
     */
    method Send(body: Option<SendBody>, saveSucceeds: bool, now: int) returns (resp: SendResponse)
      requires Valid()
      modifies this
      ensures Valid()
      ensures resp.Saved? <==> Normalize(body).Some? && MeetsSchema(Normalize(body).value) && saveSucceeds
      ensures Normalize(body).None? ==> resp == BadRequest && records == old(records)
      ensures Normalize(body).Some? && (!MeetsSchema(Normalize(body).value) || !saveSucceeds) ==>
        resp == SaveFailed && records == old(records)
      ensures resp.Saved? ==>
        && FindById(old(records), resp.id).None?
        && records == old(records) + [Record(resp.id, Normalize(body).value, now)]
    {
      var draft := Normalize(body);
      if draft.None? {
        return BadRequest;
      }
      var doc := Record(nextId, draft.value, now);
      nextId := nextId + 1;
      if !MeetsSchema(draft.value) || !saveSucceeds {
        return SaveFailed;
      }
      AppendFresh(records, nextId - 1, doc);
      records := records + [doc];
      resp := Saved(doc.id);
    }

    /**
     * `GET /api/all`: 401 before the store is consulted unless authorised,
     * 500 if the query fails, else every stored record.
     */
    method ListAll(req: AdminRequest, secret: Value, fetchSucceeds: bool)
      returns (resp: AdminResponse<seq<Apology>>)
      ensures resp == Unauthorized <==> !AdminAuth(req, secret)
      ensures resp == FetchFailed <==> AdminAuth(req, secret) && !fetchSucceeds
      ensures !resp.NotFound?
      ensures resp.Json? ==> multiset(resp.body) == multiset(records)
    {
      if !AdminAuth(req, secret) {
        return Unauthorized;
      }
      if !fetchSucceeds {
        return FetchFailed;
      }
      resp := Json(records);
    }

    /**
     * `GET /api/:id`: 401 before the store is consulted unless authorised,
     * 500 if the query fails, 404 when no record has the id, else that record.
     */
    method GetById(req: AdminRequest, secret: Value, id: nat, fetchSucceeds: bool)
      returns (resp: AdminResponse<Apology>)
      ensures resp == Unauthorized <==> !AdminAuth(req, secret)
      ensures resp == FetchFailed <==> AdminAuth(req, secret) && !fetchSucceeds
      ensures resp == NotFound <==>
        AdminAuth(req, secret) && fetchSucceeds && forall k :: 0 <= k < |records| ==> records[k].id != id
      ensures resp.Json? ==> resp.body in records && resp.body.id == id
    {
      if !AdminAuth(req, secret) {
        return Unauthorized;
      }
      if !fetchSucceeds {
        return FetchFailed;
      }
      var doc := FindById(records, id);
      if doc.None? {
        return NotFound;
      }
      resp := Json(doc.value);
    }
  }

  /** Two identical sends in a row are both saved: the server keeps no rate limit. */
  method RepeatedSendScenario(body: SendBody, now: int)
    requires body.senderName.Str? && body.senderName.s != "" && NoEdgeSpace(body.senderName.s)
    requires body.recipientEmail.Str? && body.recipientEmail.s != "" && NoEdgeSpace(body.recipientEmail.s)
  {
    TrimOfTrimmed(body.senderName.s);
    TrimOfTrimmed(body.recipientEmail.s);
    var draft := Normalize(Some(body));
    assert draft.Some? && draft.value.senderName == body.senderName.s;
    assert draft.value.recipientEmail == body.recipientEmail.s;
    assert MeetsSchema(draft.value);
    var store := new ApologyStore();
    var first := store.Send(Some(body), true, now);
    var second := store.Send(Some(body), true, now);
    assert first.Saved? && second.Saved? && first.id != second.id;
    assert |store.records| == 2;
    assert store.records[0].recipientEmail == store.records[1].recipientEmail;
    var nobody := store.ListAll(AdminRequest(Undefined, Str("guess")), Undefined, true);
    assert nobody == Unauthorized;
  }
}
