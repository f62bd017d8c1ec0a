/**
 * The resource catalogue: POST, GET, PUT and DELETE on /recursos.
 */
module Recursos {
  import opened Wrappers
  import opened Js
  import opened Store
  import opened Http

  const MissingFields: string := "Nome e descrição são obrigatórios."
  const CreateFailed: string := "Erro ao criar recurso."
  const ListFailed: string := "Erro ao buscar recursos."
  const GetNotFound: string := "Recurso não encontrado."
  const GetFailed: string := "Erro ao buscar recurso."
  const UpdateNotFound: string := "Recurso não encontrado para atualização."
  const UpdateFailed: string := "Erro ao atualizar recurso."
  const DeleteNotFound: string := "Recurso não encontrado para deletar."
  const InUse: string := "Não é possível deletar. Recurso está em uso por agendamentos."
  const DeleteFailed: string := "Erro ao deletar recurso."

  /** The fields POST and PUT require, in the order they become query parameters. */
  const Required: seq<string> := ["nome", "descricao"]

  /** The guard `!nome || !descricao` lets a body through exactly when both fields are truthy. */
  lemma RequiredFieldsTruthy(body: Body)
    ensures AllTruthy(body, Required) <==> Truthy(Field(body, "nome")) && Truthy(Field(body, "descricao"))
  {
  }

  /**
   * GET and PUT on /recursos/:id share this tail: no row touched is 404,
   * otherwise 200 with the first row; any failure is 500.
   */
  function RowOrNotFound(q: Query, outcome: Outcome, route: string, notFound: string, failed: string): Exchange {
    match outcome
    case Rows(count, rows) =>
      if count == 0 then Answered(q, Response(NotFound, Error(notFound)))
      else Answered(q, Response(Ok, Record(FirstRow(rows))))
    case Failed(err) => Caught(q, err, route, InternalServerError, failed)
  }

  /** [POST] /recursos */
  function Create(body: Body, outcome: Outcome): (x: Exchange)
    ensures x.query.None? <==> !Truthy(Field(body, "nome")) || !Truthy(Field(body, "descricao"))
    ensures x.query.None? ==> x.response == Response(BadRequest, Error(MissingFields))
    ensures x.query.Some? ==>
      x.query.value == Query(InsertRecurso, [Field(body, "nome"), Field(body, "descricao")])
    ensures x.query.Some? ==> (x.response.status == Created <==> outcome.Rows?)
    ensures x.query.Some? && outcome.Rows? ==> x.response.payload == Record(FirstRow(outcome.rows))
    ensures x.query.Some? && outcome.Failed? ==> x.response == Response(InternalServerError, Error(CreateFailed))
    ensures LoggedOnlyFailure(x, outcome, "POST /recursos")
  {
    RequiredFieldsTruthy(body);
    if !AllTruthy(body, Required) then Rejected(MissingFields)
    else
      var q := Query(InsertRecurso, [Field(body, "nome"), Field(body, "descricao")]);
      match outcome
      case Rows(_, rows) => Answered(q, Response(Created, Record(FirstRow(rows))))
      case Failed(err) => Caught(q, err, "POST /recursos", InternalServerError, CreateFailed)
  }

  /** [GET] /recursos: the store orders the rows; the handler passes them on. */
  function List(outcome: Outcome): (x: Exchange)
    ensures x.query == Some(Query(SelectRecursos, []))
    ensures x.response.status == Ok <==> outcome.Rows?
    ensures outcome.Rows? ==> x.response.payload == Records(outcome.rows)
    ensures outcome.Failed? ==> x.response == Response(InternalServerError, Error(ListFailed))
    ensures LoggedOnlyFailure(x, outcome, "GET /recursos")
  {
    var q := Query(SelectRecursos, []);
    match outcome
    case Rows(_, rows) => Answered(q, Response(Ok, Records(rows)))
    case Failed(err) => Caught(q, err, "GET /recursos", InternalServerError, ListFailed)
  }

  /** [GET] /recursos/:id */
  function Get(id: string, outcome: Outcome): (x: Exchange)
    ensures x.query == Some(Query(SelectRecurso, [Str(id)]))
    ensures x.response.status == NotFound <==> outcome.Rows? && outcome.rowCount == 0
    ensures x.response.status == Ok <==> outcome.Rows? && outcome.rowCount != 0
    ensures x.response.status == InternalServerError <==> outcome.Failed?
    ensures x.response.status == Ok ==> x.response.payload == Record(FirstRow(outcome.rows))
    ensures x.response.status == NotFound ==> x.response.payload == Error(GetNotFound)
    ensures outcome.Failed? ==> x.response.payload == Error(GetFailed)
    ensures LoggedOnlyFailure(x, outcome, "GET /recursos/:id")
  {
    RowOrNotFound(Query(SelectRecurso, [Str(id)]), outcome, "GET /recursos/:id", GetNotFound, GetFailed)
  }

  /** [PUT] /recursos/:id: a full replacement of nome and descricao. */
  function Update(id: string, body: Body, outcome: Outcome): (x: Exchange)
    ensures x.query.None? <==> !Truthy(Field(body, "nome")) || !Truthy(Field(body, "descricao"))
    ensures x.query.None? ==> x.response == Response(BadRequest, Error(MissingFields))
    ensures x.query.Some? ==>
      x.query.value == Query(UpdateRecurso, [Field(body, "nome"), Field(body, "descricao"), Str(id)])
    ensures x.query.Some? ==> (x.response.status == NotFound <==> outcome.Rows? && outcome.rowCount == 0)
    ensures x.query.Some? ==> (x.response.status == Ok <==> outcome.Rows? && outcome.rowCount != 0)
    ensures x.query.Some? ==> (x.response.status == InternalServerError <==> outcome.Failed?)
    ensures x.response.status == Ok ==> x.response.payload == Record(FirstRow(outcome.rows))
    ensures x.response.status == NotFound ==> x.response.payload == Error(UpdateNotFound)
    ensures x.query.Some? && outcome.Failed? ==> x.response.payload == Error(UpdateFailed)
    ensures LoggedOnlyFailure(x, outcome, "PUT /recursos/:id")
  {
    RequiredFieldsTruthy(body);
    if !AllTruthy(body, Required) then Rejected(MissingFields)
    else
      var q := Query(UpdateRecurso, [Field(body, "nome"), Field(body, "descricao"), Str(id)]);
      RowOrNotFound(q, outcome, "PUT /recursos/:id", UpdateNotFound, UpdateFailed)
  }

  /**
   * [DELETE] /recursos/:id. Only a foreign-key violation (the resource is
   * still referenced by a reservation) becomes 409; every other failure,
   * including one without a code, is 500.
   */
  function Delete(id: string, outcome: Outcome): (x: Exchange)
    ensures x.query == Some(Query(DeleteRecurso, [Str(id)]))
    ensures x.response.status == NoContent <==> outcome.Rows? && outcome.rowCount != 0
    ensures x.response.status == NotFound <==> outcome.Rows? && outcome.rowCount == 0
    ensures x.response.status == Conflict <==> outcome.Failed? && HasCode(outcome.err, ForeignKeyViolation)
    ensures x.response.status == InternalServerError <==>
      outcome.Failed? && !HasCode(outcome.err, ForeignKeyViolation)
    ensures x.response.status == NoContent ==> x.response.payload == Empty
    ensures x.response.status == NotFound ==> x.response.payload == Error(DeleteNotFound)
    ensures x.response.status == Conflict ==> x.response.payload == Error(InUse)
    ensures x.response.status == InternalServerError ==> x.response.payload == Error(DeleteFailed)
    ensures LoggedOnlyFailure(x, outcome, "DELETE /recursos/:id")
  {
    var q := Query(DeleteRecurso, [Str(id)]);
    match outcome
    case Rows(count, _) =>
      if count == 0 then Answered(q, Response(NotFound, Error(DeleteNotFound)))
      else Answered(q, Response(NoContent, Empty))
    case Failed(err) =>
      if HasCode(err, ForeignKeyViolation) then Caught(q, err, "DELETE /recursos/:id", Conflict, InUse)
      else Caught(q, err, "DELETE /recursos/:id", InternalServerError, DeleteFailed)
  }
}
