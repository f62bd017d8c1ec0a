/**
 * Blackout dates: POST /bloqueios. No store code is translated here: every
 * failure is 500.
 */
module Bloqueios {
  import opened Js
  import opened Store
  import opened Http

  const MissingFields: string := "Nome, data, tipo e valido_para_todos são obrigatórios."
  const CreateFailed: string := "Erro ao criar bloqueio."

  /** The fields the guard tests for truthiness; `valido_para_todos` is only tested for presence. */
  const Required: seq<string> := ["nome", "data", "tipo"]

  lemma RequiredFieldsTruthy(body: Body)
    ensures AllTruthy(body, Required) <==>
      Truthy(Field(body, "nome")) && Truthy(Field(body, "data")) && Truthy(Field(body, "tipo"))
  {
    assert Required[0] == "nome" && Required[1] == "data" && Required[2] == "tipo";
  }

  /**
   * [POST] /bloqueios. `valido_para_todos === undefined` is the only test on
   * that field, so `false` and `null` pass. `now` is `Date.now()`.
   */
  function Create(body: Body, now: int, outcome: Outcome): (x: Exchange)
    ensures x.query.None? <==>
      || !Truthy(Field(body, "nome"))
      || !Truthy(Field(body, "data"))
      || !Truthy(Field(body, "tipo"))
      || Field(body, "valido_para_todos") == Undefined
    ensures x.query.None? ==> x.response == Response(BadRequest, Error(MissingFields))
    ensures x.query.Some? ==> x.query.value == Query(InsertBloqueio,
      [ Field(body, "nome"), Field(body, "data"), Field(body, "tipo"),
        Field(body, "valido_para_todos"), Num(now as real) ])
    ensures x.query.Some? ==> (x.response.status == Created <==> outcome.Rows?)
    ensures x.query.Some? && outcome.Rows? ==> x.response.payload == Record(FirstRow(outcome.rows))
    ensures x.query.Some? && outcome.Failed? ==> x.response == Response(InternalServerError, Error(CreateFailed))
    ensures LoggedOnlyFailure(x, outcome, "POST /bloqueios")
  {
    RequiredFieldsTruthy(body);
    if !AllTruthy(body, Required) || Field(body, "valido_para_todos") == Undefined then Rejected(MissingFields)
    else
      var q := Query(InsertBloqueio,
        [ Field(body, "nome"), Field(body, "data"), Field(body, "tipo"),
          Field(body, "valido_para_todos"), Num(now as real) ]);
      match outcome
      case Rows(_, rows) => Answered(q, Response(Created, Record(FirstRow(rows))))
      case Failed(err) => Caught(q, err, "POST /bloqueios", InternalServerError, CreateFailed)
  }

  /** An explicit `false` or `null` for `valido_para_todos` is accepted; only its absence is rejected. */
  lemma PresenceNotTruthiness(body: Body, now: int, outcome: Outcome)
    requires Truthy(Field(body, "nome")) && Truthy(Field(body, "data")) && Truthy(Field(body, "tipo"))
    ensures Field(body, "valido_para_todos") in {Bool(false), Null} ==> Create(body, now, outcome).query.Some?
    ensures "valido_para_todos" !in body ==> Create(body, now, outcome).query.None?
  {
  }
}
