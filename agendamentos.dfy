/**
 * Reservations: POST /agendamentos. The store enforces that a resource is
 * booked at most once per date and slot (a unique constraint) and that the
 * booked resource exists (a foreign key); the handler only translates the
 * violation codes it receives.
 */
module Agendamentos {
  import opened Js
  import opened Store
  import opened Http

  const MissingFields: string := "Todos os campos são obrigatórios."
  const SlotTaken: string := "Conflito: Já existe um agendamento para este recurso neste horário."
  const UnknownResource: string := "Recurso especificado (id_recurso) não existe."
  const CreateFailed: string := "Erro ao criar agendamento."

  /** The body fields the guard requires, in the order they become query parameters. */
  const Required: seq<string> := ["professor", "turma", "data_reserva", "horario_reserva", "id_recurso"]

  /** The guard lets a body through exactly when all five fields are truthy; `id_recurso = 0` is not. */
  lemma RequiredFieldsTruthy(body: Body)
    ensures AllTruthy(body, Required) <==>
      && Truthy(Field(body, "professor"))
      && Truthy(Field(body, "turma"))
      && Truthy(Field(body, "data_reserva"))
      && Truthy(Field(body, "horario_reserva"))
      && Truthy(Field(body, "id_recurso"))
  {
    assert Required[0] == "professor" && Required[1] == "turma" && Required[2] == "data_reserva";
    assert Required[3] == "horario_reserva" && Required[4] == "id_recurso";
  }

  /**
   * [POST] /agendamentos. `now` is `Date.now()`, read by the server: the
   * creation time is the last parameter and is never taken from the body.
   */
  function Create(body: Body, now: int, outcome: Outcome): (x: Exchange)
    ensures x.query.None? <==>
      || !Truthy(Field(body, "professor"))
      || !Truthy(Field(body, "turma"))
      || !Truthy(Field(body, "data_reserva"))
      || !Truthy(Field(body, "horario_reserva"))
      || !Truthy(Field(body, "id_recurso"))
    ensures x.query.None? ==> x.response == Response(BadRequest, Error(MissingFields))
    ensures x.query.Some? ==> x.query.value == Query(InsertAgendamento,
      [ Field(body, "professor"), Field(body, "turma"), Field(body, "data_reserva"),
        Field(body, "horario_reserva"), Field(body, "id_recurso"), Num(now as real) ])
    ensures x.query.Some? ==> (x.response.status == Created <==> outcome.Rows?)
    ensures x.query.Some? && outcome.Rows? ==> x.response.payload == Record(FirstRow(outcome.rows))
    ensures x.query.Some? ==> (x.response.status == Conflict <==>
      outcome.Failed? && (HasCode(outcome.err, UniqueViolation) || HasCode(outcome.err, ForeignKeyViolation)))
    ensures x.query.Some? && outcome.Failed? && HasCode(outcome.err, UniqueViolation) ==>
      x.response.payload == Error(SlotTaken)
    ensures x.query.Some? && outcome.Failed? && HasCode(outcome.err, ForeignKeyViolation) ==>
      x.response.payload == Error(UnknownResource)
    ensures (x.query.Some? && outcome.Failed? &&
             !HasCode(outcome.err, UniqueViolation) && !HasCode(outcome.err, ForeignKeyViolation)) ==>
      x.response == Response(InternalServerError, Error(CreateFailed))
    ensures LoggedOnlyFailure(x, outcome, "POST /agendamentos")
  {
    RequiredFieldsTruthy(body);
    if !AllTruthy(body, Required) then Rejected(MissingFields)
    else
      var q := Query(InsertAgendamento,
        [ Field(body, "professor"), Field(body, "turma"), Field(body, "data_reserva"),
          Field(body, "horario_reserva"), Field(body, "id_recurso"), Num(now as real) ]);
      match outcome
      case Rows(_, rows) => Answered(q, Response(Created, Record(FirstRow(rows))))
      case Failed(err) =>
        if HasCode(err, UniqueViolation) then Caught(q, err, "POST /agendamentos", Conflict, SlotTaken)
        else if HasCode(err, ForeignKeyViolation) then Caught(q, err, "POST /agendamentos", Conflict, UnknownResource)
        else Caught(q, err, "POST /agendamentos", InternalServerError, CreateFailed)
  }

  /** The two conflicts keep apart which invariant the store found violated. */
  lemma ConflictsAreDistinguished(body: Body, now: int, e1: StoreError, e2: StoreError)
    requires HasCode(e1, UniqueViolation) && HasCode(e2, ForeignKeyViolation)
    requires Create(body, now, Failed(e1)).query.Some?
    ensures Create(body, now, Failed(e1)).response.status == Create(body, now, Failed(e2)).response.status == Conflict
    ensures Create(body, now, Failed(e1)).response != Create(body, now, Failed(e2)).response
  {
  }
}
