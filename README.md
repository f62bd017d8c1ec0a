# Request classification of the scheduling API (Controle-de-Horario)

This project models the request-classification layer of the booking API in
`server.js`. The API manages resources (`recursos`), reservations
(`agendamentos`) and blackout dates (`bloqueios`). Every route handler does the
same three things:

1. It checks the JSON body with a presence guard. Most guards use JavaScript
   truthiness (`!x`). The blackout route tests `valido_para_todos` against
   `undefined` only.
2. It issues one parameterised PostgreSQL query.
3. It turns the outcome into an HTTP status and a body. The outcome is rows
   returned, `rowCount === 0`, or a failure that may carry a SQLSTATE code.
   Only 23505 (unique_violation) and 23503 (foreign_key_violation) are
   recognised. Both belong to class 23, Integrity Constraint Violation.

Each handler is a pure function. Its inputs are the request, the server clock
and the store's outcome. It returns an `Exchange`: the query it issued (if
any), the response it sent, and the lines `logError` wrote. The uniqueness of
(resource, date, slot) and the foreign key from reservations to resources are
enforced by a database schema that is not part of this repository. The model
receives their violations as codes and does not re-implement them.

Modules:

- `Js` (`js.dfy`): body values, ECMAScript ToBoolean (section 7.1.2 of
  ECMA-262), and field reads that give `undefined` for absent fields.
- `Store` (`store.dfy`): the statements, queries, outcomes and SQLSTATE codes.
- `ErrorLog` (`errorlog.dfy`): `logError`.
- `Http` (`http.dfy`): status codes as in RFC 9110, payloads and exchanges.
- `Recursos`, `Agendamentos`, `Bloqueios`: the route handlers.
- `Api` (`api.dfy`): a dispatcher over all seven routes, and the properties
  that hold across routes.

Two facts about the code that a reader may not expect:

- Only `DELETE /recursos/:id` (23503 to 409) and `POST /agendamentos`
  (23505 and 23503 to 409) map store codes. `POST /recursos`,
  `PUT /recursos/:id` and `POST /bloqueios` answer 500 for every failure.
- Guards test truthiness, so `0`, `false`, `null` and `""` are rejected,
  including `id_recurso = 0`.

## Model

| member | source | states |
|---|---|---|
| `Js.AllTruthy` | server.js:146 | A chain of `!f0 \|\| !f1 \|\| ...` lets a body through exactly when every named field is truthy. |
| `Js.FalsyValues` | server.js:52 | The falsy body values are exactly `undefined`, `null`, `false`, `0` and `""`. |
| `Js.AllTruthyReadsOnlyNamed` | server.js:100 | A truthiness guard gives the same verdict on two bodies that agree on the fields it names. |
| `ErrorLog.LogError` | server.js:26-31 | `logError` always logs the route and `err.message`. It logs the code as a second line exactly when `err.code` is truthy. |
| `Recursos.RequiredFieldsTruthy` | server.js:52-54 | The resource guard passes exactly when both `nome` and `descricao` are truthy. |
| `Recursos.Create` | server.js:49-64 | 400 with no query when `nome` or `descricao` is falsy. Otherwise it inserts `[nome, descricao]` in that order and answers 201 with `rows[0]` on success. Any failure is 500 with a fixed message, whatever the code (no 409). Only the failure is logged. |
| `Recursos.List` | server.js:67-76 | It issues the parameterless list query and answers 200 with all rows, or 500 on failure. |
| `Recursos.Get` | server.js:79-93 | The query has `[id]`. 404 exactly when `rowCount === 0`, 200 with `rows[0]` exactly when rows were counted, and 500 exactly on failure. |
| `Recursos.Update` | server.js:96-116 | Same guard as create, checked before the query. The parameters are `[nome, descricao, id]`. 404 exactly when `rowCount === 0`, 200 with `rows[0]` otherwise, and 500 on any failure. |
| `Recursos.Delete` | server.js:119-136 | 204 with an empty body exactly when a row was deleted, and 404 exactly when `rowCount === 0`. 409 ("in use") exactly for code 23503. 500 for every other code or a missing code. |
| `Agendamentos.RequiredFieldsTruthy` | server.js:146-148 | The reservation guard passes exactly when all five fields are truthy. |
| `Agendamentos.Create` | server.js:142-172 | 400 with no query if any of the five fields is falsy. Otherwise the parameters are the five body fields in order, then the server clock. 201 with `rows[0]` on success. 409 exactly for codes 23505 and 23503, each with its own message. 500 otherwise. |
| `Agendamentos.ConflictsAreDistinguished` | server.js:164-169 | A slot conflict and a nonexistent resource both answer 409, with different bodies. |
| `Bloqueios.RequiredFieldsTruthy` | server.js:182 | The blackout truthiness guard covers exactly `nome`, `data` and `tipo`. |
| `Bloqueios.Create` | server.js:178-200 | 400 with no query exactly when `nome`, `data` or `tipo` is falsy, or when `valido_para_todos` is `undefined`. The parameters are the four body fields in order, then the server clock. 201 with `rows[0]` on success. 500 on any failure. |
| `Bloqueios.PresenceNotTruthiness` | server.js:182-184 | An explicit `false` or `null` for `valido_para_todos` passes the guard. An absent one is rejected. |
| `Api.Handle` | server.js:49-200 | Every route answers only with its own statuses. Error statuses (400 and up) are exactly the responses with an `{ error }` body, and the message is one of the route's fixed strings. |
| `Api.ValidationBeforeStore` | server.js:49-200 | A request issues no query exactly when it is answered 400. Such an answer does not depend on the store outcome. |
| `Api.StoreMessageNeverSent` | server.js:26-31 | Two failures with the same code get the same response, whatever their messages. The message appears only in the log. |
| `Api.ConflictOnlyFromIntegrityViolation` | server.js:125-170 | 409 arises only on DELETE and on reservation creation, and only from code 23505 or 23503. On DELETE it arises only from 23503. |
| `Api.FoundResourceIsReturned` | server.js:85-88 | When the store returns as many rows as it counts, a 200 from GET or PUT by id carries the first row. |
| `Api.OnlyDeclaredFieldsRead` | server.js:143-157 | A route's exchange depends on the body only through its declared fields. |
| `Api.CreationTimeFromServer` | server.js:180-192 | `data_criacao` in the body changes nothing. When a query is issued, its last parameter is the server clock. |

## Left out

- Express setup, `cors()`, the JSON body parser, the `/` liveness route and `app.listen` (server.js:11-12, 36-42, 205-207). These are transport plumbing. A body is taken to be the parsed JSON object. A body that is not an object, or a missing `req.body`, is not modelled.
- The `pg` pool configuration and SQL execution (server.js:17-23). This is a foreign library and database I/O. The outcome of each handler's one query is an input.
- The uniqueness constraint on (resource, date, slot), the foreign-key enforcement (including restrict-on-delete) and the `ORDER BY nome ASC` ordering. The database and a schema outside this repository perform them. The model only states how their outcomes are translated.
- The timestamp written by `logError` (`new Date().toISOString()`) and `console.error` itself. These are a clock read and I/O. The log is modelled as the lines' content, without the timestamp. `Date.now()` becomes the `now` parameter.
- The `async`/`await` structure. Each handler awaits exactly one call, and there is no shared state in the process.
- Serialisation of response bodies (`res.json(undefined)` for a missing `rows[0]` is kept as `Record(None)`). Path-parameter syntax is not checked either: `:id` is passed to the store as the string it is.
