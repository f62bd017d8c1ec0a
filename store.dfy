/**
 * What a handler sends to PostgreSQL and what it gets back. SQL execution
 * itself is not modelled: a handler receives the outcome of its one query as
 * an input.
 */
module Store {
  import opened Wrappers
  import Js

  /** A returned row: column names to values. */
  type Row = map<string, Js.Value>

  /** The parameterised statements the handlers issue, one per route. */
  datatype Statement =
    | InsertRecurso      // INSERT INTO recursos (nome, descricao) ... RETURNING *
    | SelectRecursos     // SELECT * FROM recursos ORDER BY nome ASC
    | SelectRecurso      // SELECT * FROM recursos WHERE id = $1
    | UpdateRecurso      // UPDATE recursos SET nome = $1, descricao = $2 WHERE id = $3 RETURNING *
    | DeleteRecurso      // DELETE FROM recursos WHERE id = $1 RETURNING *
    | InsertAgendamento  // INSERT INTO agendamentos (...six columns...) RETURNING *
    | InsertBloqueio     // INSERT INTO bloqueio (...five columns...) RETURNING *

  /** One call of the pool's `query` with its positional parameters `$1, $2, ...`. */
  datatype Query = Query(statement: Statement, params: seq<Js.Value>)

  /**
   * The error a failed query rejects with: an optional SQLSTATE (or driver)
   * code and a human-readable message.
   */
  datatype StoreError = StoreError(code: Option<string>, message: string)

  /** A query either resolves with `rowCount` and `rows`, or rejects with an error. */
  datatype Outcome =
    | Rows(rowCount: nat, rows: seq<Row>)
    | Failed(err: StoreError)

  /** SQLSTATE 23505, unique_violation (class 23, Integrity Constraint Violation). */
  const UniqueViolation: string := "23505"

  /** SQLSTATE 23503, foreign_key_violation (class 23, Integrity Constraint Violation). */
  const ForeignKeyViolation: string := "23503"

  /** `err.code === code`: an absent code equals no string. */
  predicate HasCode(err: StoreError, code: string) {
    err.code == Some(code)
  }

  /** `result.rows[0]`: `undefined` when no row came back. */
  function FirstRow(rows: seq<Row>): Option<Row> {
    if |rows| == 0 then None else Some(rows[0])
  }

  /**
   * Every statement here is a SELECT or carries RETURNING *, so the store
   * reports as many rows as it counts.
   */
  predicate Consistent(outcome: Outcome) {
    outcome.Rows? ==> outcome.rowCount == |outcome.rows|
  }
}
