# Agenda API contact directory — Dafny model

The agenda API is a small web service that keeps a directory of contacts in
process memory. This project models its core: the shape of a creation
request (`ContactCreate`), the stored record (`Contact`), the process-wide
store (`contacts_db`), and the four handlers that touch the store:

- `adicionar_contato` (POST `/contatos`) builds a record and appends it;
- `visualizar_contatos` (GET `/contatos`) returns the whole store;
- `buscar_contato` (GET `/contatos/{id}`) scans the store for the first
  record with that id, or fails with 404 "Contato não encontrado";
- `health_check` (GET `/health`) reports the store size.

Files:

- `wrappers.dfy` — module `Wrappers`: `Option` (Python's `None` or a value)
  and `Result` (a value or an HTTP error).
- `agenda.dfy` — module `Agenda`: the record shapes, the reference
  specification of lookup (`Lookup`, `Ids`, `FirstMatch`, `IdsDistinct`), the
  lemmas about them, and the class `ContactDirectory`. The class holds the
  store as a mutable `seq<Contact>` field. Its methods mirror the handlers:
  `Create` appends in place, and `Find` is the source's `for` loop with an
  early return, proved against `Lookup`.

The random uuid4 id and `datetime.now()` are parameters of `Create`. The
caller must supply an id that is not in use yet. With that precondition the
class invariant `Valid()` holds: ids are pairwise distinct.

`nome` and `telefone` are only required to be strings (app/main.py:81-85),
so an empty string is accepted; the model accepts any string.

## Model

| member | source | states |
|---|---|---|
| `Agenda.MakeContact` | app/main.py:185-192 | the new record carries the request's `nome`, `telefone`, `email` and `endereco` unchanged (its projection back to a request is the request itself), the generated id and the current time |
| `Agenda.LookupFirstMatch` | app/main.py:227-237 | when position i holds the first record in store order with the requested id, lookup returns that record |
| `Agenda.LookupMissing` | app/main.py:239-244 | an id carried by no record makes lookup fail with status 404 and detail "Contato não encontrado" |
| `Agenda.LookupCorrect` | app/main.py:226-244 | lookup succeeds exactly when the id is in use, returning the first match in store order with that id; otherwise it is the 404 error |
| `Agenda.LookupOwnId` | app/main.py:227-237 | in a store with distinct ids, every stored record is found by its own id |
| `Agenda.AppendFresh` | app/main.py:182-195 | appending a record whose id is fresh keeps all ids pairwise distinct and adds exactly that id to the set of ids |
| `Agenda.LookupAfterAppend` | app/main.py:194-195 | after appending a record with a fresh id, that id resolves to the new record and every other id resolves as it did before |
| `Agenda.ContactDirectory.constructor` | app/main.py:95 | the store starts empty, with the invariant holding |
| `Agenda.ContactDirectory.HealthCheck` | app/main.py:112-114 | reports status "healthy", service "agenda-api" and `total_contatos` equal to the store size; the store is not modified |
| `Agenda.ContactDirectory.Count` | app/main.py:114 | returns the store size without modifying the store |
| `Agenda.ContactDirectory.Create` | app/main.py:166-205 | appends exactly one record at the end and leaves earlier records in place; the record copies the request and takes the given id and time; the size grows by one; ids stay distinct; the new id resolves to the returned record and all other lookups are unchanged |
| `Agenda.ContactDirectory.List` | app/main.py:207-213 | returns the stored contacts in creation order and modifies nothing |
| `Agenda.ContactDirectory.Find` | app/main.py:215-244 | the in-order scan returns the first record whose id matches, or the 404 error exactly when no record carries the id; it agrees with `Lookup` and modifies nothing |
| `Agenda.CreateThenFind` | app/main.py:166-244 | the created record carries the request, the fresh id and the time; a lookup of that id in the store after the create returns exactly that record |

## Left out

- Tracing spans and span attributes (OpenTelemetry): side channels with no effect on results.
- Structured logging (every `logger` call): output only.
- The request-timing middleware: wall-clock floating-point timing and I/O.
- `/system-metrics` and `/system-metrics-prometheus`: operating-system queries with floating-point division and rounding; their only store-related value is the store size, which `Count` models.
- The root endpoint `/`: a constant dictionary.
- Prometheus instrumentation, CORS and the FastAPI application wiring: framework configuration.
- uuid4 generation and `datetime.now()`: modelled as parameters of `Create`; the 122 random bits of a uuid4, which make a collision negligible, become the precondition that the id is fresh.
- Pydantic type coercion and its 422 validation responses: the request is a typed record, so a missing or wrongly typed field cannot be expressed.
- `total_contacts` in the create handler is only written to a span attribute and a log line; the model states the same value as the store size after `Create`.
- Agenda.ContactDirectory.List: returns the store's contents as a value; the source returns the list object itself, and that aliasing is not modelled (the framework serialises the list and never mutates it).
- Concurrency: the source has no lock around the append; the model is sequential.
