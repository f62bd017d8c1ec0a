/**
 * The seven routes behind one dispatcher, and the properties that hold of
 * all of them: the statuses each route can answer, the fixed error bodies,
 * validation before any query, and what a store failure can and cannot
 * change in a response.
 */
module Api {
  import opened Wrappers
  import opened Js
  import opened Store
  import opened Http
  import Recursos
  import Agendamentos
  import Bloqueios

  /** A routed request: the method and path, the `:id` path parameter and the parsed body. */
  datatype Request =
    | CreateResource(body: Body)              // POST /recursos
    | ListResources                           // GET /recursos
    | GetResource(id: string)                 // GET /recursos/:id
    | UpdateResource(id: string, body: Body)  // PUT /recursos/:id
    | DeleteResource(id: string)              // DELETE /recursos/:id
    | CreateReservation(body: Body)           // POST /agendamentos
    | CreateBlackout(body: Body)              // POST /bloqueios

  /** The statuses each route can answer with. */
  function Statuses(req: Request): set<nat> {
    match req
    case CreateResource(_) => {Created, BadRequest, InternalServerError}
    case ListResources => {Ok, InternalServerError}
    case GetResource(_) => {Ok, NotFound, InternalServerError}
    case UpdateResource(_, _) => {Ok, BadRequest, NotFound, InternalServerError}
    case DeleteResource(_) => {NoContent, NotFound, Conflict, InternalServerError}
    case CreateReservation(_) => {Created, BadRequest, Conflict, InternalServerError}
    case CreateBlackout(_) => {Created, BadRequest, InternalServerError}
  }

  /** The fixed error messages each route can answer with. */
  function Messages(req: Request): set<string> {
    match req
    case CreateResource(_) => {Recursos.MissingFields, Recursos.CreateFailed}
    case ListResources => {Recursos.ListFailed}
    case GetResource(_) => {Recursos.GetNotFound, Recursos.GetFailed}
    case UpdateResource(_, _) => {Recursos.MissingFields, Recursos.UpdateNotFound, Recursos.UpdateFailed}
    case DeleteResource(_) => {Recursos.DeleteNotFound, Recursos.InUse, Recursos.DeleteFailed}
    case CreateReservation(_) =>
      {Agendamentos.MissingFields, Agendamentos.SlotTaken, Agendamentos.UnknownResource, Agendamentos.CreateFailed}
    case CreateBlackout(_) => {Bloqueios.MissingFields, Bloqueios.CreateFailed}
  }

  /** The body fields a route reads, in the order it reads them. */
  function BodyFields(req: Request): seq<string> {
    match req
    case CreateResource(_) => Recursos.Required
    case UpdateResource(_, _) => Recursos.Required
    case CreateReservation(_) => Agendamentos.Required
    case CreateBlackout(_) => Bloqueios.Required + ["valido_para_todos"]
    case _ => []
  }

  /**
   * One request end to end. `now` is the server clock, `outcome` what the
   * store answers to the route's query (ignored when no query is issued).
   * Every answer is one of the route's statuses; every error answer is
   * `{ error }` with one of the route's fixed messages; success answers
   * carry no error.
   */
  function Handle(req: Request, now: int, outcome: Outcome): (x: Exchange)
    ensures x.response.status in Statuses(req)
    ensures x.response.status >= 400 <==> x.response.payload.Error?
    ensures x.response.payload.Error? ==> x.response.payload.message in Messages(req)
  {
    match req
    case CreateResource(body) => Recursos.Create(body, outcome)
    case ListResources => Recursos.List(outcome)
    case GetResource(id) => Recursos.Get(id, outcome)
    case UpdateResource(id, body) => Recursos.Update(id, body, outcome)
    case DeleteResource(id) => Recursos.Delete(id, outcome)
    case CreateReservation(body) => Agendamentos.Create(body, now, outcome)
    case CreateBlackout(body) => Bloqueios.Create(body, now, outcome)
  }

  /**
   * Validation comes before the store: a request answered 400 issued no
   * query and its answer does not depend on what the store would have said;
   * a request that issued no query was answered 400.
   */
  lemma ValidationBeforeStore(req: Request, now: int, o1: Outcome, o2: Outcome)
    ensures Handle(req, now, o1).query.None? <==> Handle(req, now, o1).response.status == BadRequest
    ensures Handle(req, now, o1).query.None? ==> Handle(req, now, o1) == Handle(req, now, o2)
  {
  }

  /**
   * `err.message` never reaches the client: two failures with the same code
   * get the same response, whatever their messages. The message goes to the
   * log only.
   */
  lemma StoreMessageNeverSent(req: Request, now: int, code: Option<string>, m1: string, m2: string)
    ensures Handle(req, now, Failed(StoreError(code, m1))).response ==
            Handle(req, now, Failed(StoreError(code, m2))).response
    ensures Handle(req, now, Failed(StoreError(code, m1))).query.Some? ==>
            var log := Handle(req, now, Failed(StoreError(code, m1))).log;
            |log| > 0 && log[0].Failure? && log[0].message == m1
  {
  }

  /**
   * 409 comes only from an integrity-constraint code the handler recognises,
   * and only on the two routes that translate codes.
   */
  lemma ConflictOnlyFromIntegrityViolation(req: Request, now: int, outcome: Outcome)
    requires Handle(req, now, outcome).response.status == Conflict
    ensures req.DeleteResource? || req.CreateReservation?
    ensures outcome.Failed?
    ensures HasCode(outcome.err, UniqueViolation) || HasCode(outcome.err, ForeignKeyViolation)
    ensures req.DeleteResource? ==> HasCode(outcome.err, ForeignKeyViolation)
  {
  }

  /** With a store that returns as many rows as it counts, a 200 for one resource carries that resource. */
  lemma FoundResourceIsReturned(req: Request, now: int, outcome: Outcome)
    requires req.GetResource? || req.UpdateResource?
    requires Consistent(outcome)
    requires Handle(req, now, outcome).response.status == Ok
    ensures Handle(req, now, outcome).response.payload == Record(Some(outcome.rows[0]))
  {
  }

  /**
   * A route reads nothing from the body but its declared fields: two bodies
   * that agree on them give the same exchange.
   */
  lemma {:induction false} OnlyDeclaredFieldsRead(req: Request, body2: Body, now: int, outcome: Outcome)
    requires req.CreateResource? || req.UpdateResource? || req.CreateReservation? || req.CreateBlackout?
    requires AgreeOn(req.body, body2, BodyFields(req))
    ensures Handle(req, now, outcome) == Handle(req.(body := body2), now, outcome)
  {
    var fs := BodyFields(req);
    forall i | 0 <= i < |fs| ensures Field(req.body, fs[i]) == Field(body2, fs[i]) {
    }
    match req
    case CreateResource(b) =>
      AllTruthyReadsOnlyNamed(b, body2, fs);
      assert Field(b, fs[0]) == Field(body2, fs[0]) && Field(b, fs[1]) == Field(body2, fs[1]);
    case UpdateResource(_, b) =>
      AllTruthyReadsOnlyNamed(b, body2, fs);
      assert Field(b, fs[0]) == Field(body2, fs[0]) && Field(b, fs[1]) == Field(body2, fs[1]);
    case CreateReservation(b) =>
      AllTruthyReadsOnlyNamed(b, body2, fs);
      assert Field(b, fs[0]) == Field(body2, fs[0]) && Field(b, fs[1]) == Field(body2, fs[1]);
      assert Field(b, fs[2]) == Field(body2, fs[2]) && Field(b, fs[3]) == Field(body2, fs[3]);
      assert Field(b, fs[4]) == Field(body2, fs[4]);
    case CreateBlackout(b) =>
      assert Field(b, fs[0]) == Field(body2, fs[0]) && Field(b, fs[1]) == Field(body2, fs[1]);
      assert Field(b, fs[2]) == Field(body2, fs[2]) && Field(b, fs[3]) == Field(body2, fs[3]);
  }

  /**
   * `data_criacao` is stamped by the server: whatever the body says under
   * that name, a reservation or blackout request issues the same query,
   * whose last parameter is the server clock.
   */
  lemma CreationTimeFromServer(req: Request, v: Value, now: int, outcome: Outcome)
    requires req.CreateReservation? || req.CreateBlackout?
    ensures Handle(req, now, outcome) == Handle(req.(body := req.body["data_criacao" := v]), now, outcome)
    ensures Handle(req, now, outcome).query.Some? ==>
      var ps := Handle(req, now, outcome).query.value.params;
      |ps| > 0 && ps[|ps| - 1] == Num(now as real)
  {
  }
}
