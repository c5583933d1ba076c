# Intent resolution and dispatch engine — Dafny model

This project models the core of an automation API. The API turns a free-text prompt into a call
to one allowed automation function and runs that function safely. The model covers:

- **Allow-list.** A given map from function name to handler (`Api.Engine.allowed`).
- **Vector collection.** One stored embedding per allowed name. It is rebuilt from scratch at
  start-up: every stored id is deleted, then one entry per allowed name is added.
- **Session memory.** Per session id, the prompts submitted so far, in order and without repeats.
- **Resolver** (`retrieve_best_function`). It records the prompt, asks the collection for the
  nearest entry and applies the similarity threshold of 0.45. A distance strictly above the
  threshold means "no match"; a distance equal to it is accepted.
- **Dispatcher** (`execute_function`). It checks the allow-list and passes keyword parameters
  only when the mapping is non-empty. It turns every return value and every exception into an
  output value, so it never raises.
- **Endpoints.** The single-prompt endpoint and the batch endpoint, without HTTP.
- **Code generator.** The Python script template with the function name spliced in.

Files:

- `types.dfy`: Python values, truthiness, and handler outcomes.
- `sessions.dfy`: the history functions and lemmas about them.
- `similarity.dfy`: the index, the nearest-entry predicate, the threshold decision and the
  resolver's promise.
- `dispatch.dfy`: the dispatcher.
- `api.dfy`: the `Engine` class, whose fields are the collection and the session memory.
- `code_generator.dfy`: the script template.

The embedding model is the field `embed`, a function from text to vector. The distance is the
field `dist`, a function from two vectors to a `real`. Nothing is assumed about either beyond
what each lemma states in its `requires`. The top-1 query returns *some* entry of minimum
distance. Which of several equally near entries it returns is left open, as the vector store
leaves it open. A handler is a function from its optional keyword arguments to what it does:
return a value, raise `TypeError`, or raise any other exception.

On these points the code's behaviour is easy to misread; the model follows the code:

- The index embeds the function name itself (`api.py:47`). The separate registry script
  embeds each function's docstring instead (`function_registry.py:20`), but the API does not
  use it.
- An unauthorized name does not produce a separate error kind. The `ValueError` is caught by
  the generic handler, and its message is returned as the output.
- Every falsy result becomes `"Executed Successfully"`, not only `None`: that includes `""`
  and `0`.
- Both endpoints test the resolved name for truthiness. An empty-string id therefore counts as
  "no match" (`NotFound`, or the no-match record in a batch).

## Model

| member | source | states |
|---|---|---|
| `Api.Engine.constructor` | api.py:26-56 | Start-up takes the allow-list as given. It rebuilds the collection from whatever it held, so the index is in sync with the allow-list. The session memory starts empty. |
| `Api.Engine.ClearAndStoreFunctions` | api.py:34-48 | Afterwards the collection's ids are exactly the allowed names, and each name's entry is the embedding of that name. No stale id survives. |
| `Api.Engine.QueryNearest` | api.py:81-92 | Returns no ids exactly when the collection is empty. Otherwise it returns an entry of minimum distance to the query, together with that distance. |
| `Similarity.NearestExists` | api.py:81-85 | A non-empty collection always has an entry of minimum distance, so the top-1 query always has an answer. |
| `Similarity.Accept` | api.py:87-100 | Gives a match exactly when there is a nearest id whose distance is at most 0.45. A distance equal to 0.45 is accepted. The match is that id. |
| `Similarity.AcceptResolves` | api.py:81-100 | The threshold applied to a correct top-1 answer gives "no match" exactly when the index is empty or every entry is farther than 0.45. Otherwise the result is a nearest entry within the threshold. |
| `Api.Engine.RetrieveBestFunction` | api.py:72-100 | Records the prompt before the query, whatever the outcome. The session's history becomes `Record(old history, prompt)` and the other sessions are unchanged. The result satisfies the resolver promise above, and no history gains a duplicate. |
| `Sessions.Record` | api.py:77-79 | The old history is a prefix of the new one, so order is preserved. The prompt is present afterwards, and nothing else is added. Length grows by one exactly when the prompt was new. A duplicate-free history stays duplicate-free. |
| `Sessions.RecordedOnce` | api.py:77-79 | After recording, the prompt occurs exactly once in a duplicate-free history. |
| `Sessions.OccursOnce` | api.py:77-79 | In a duplicate-free history, every recorded prompt has multiplicity one. |
| `Sessions.RecordAll` | api.py:153-154 | Recording a batch keeps the old history as a prefix and keeps the history duplicate-free. |
| `Sessions.RecordAllMembers` | api.py:153-154 | After a batch, the history holds exactly the earlier prompts and the batch's prompts. |
| `Sessions.RecordAllFresh` | api.py:153-154 | Distinct prompts that are new to the session are appended in submission order. |
| `Sessions.RecordAllPresent` | api.py:77-79 | Re-submitting prompts that are already recorded leaves the history unchanged. |
| `Sessions.RecordAllIdempotent` | api.py:153-154 | Submitting the same batch twice gives the same history as submitting it once. |
| `Sessions.RecordAllStep` | api.py:153-154 | Recording one more prompt of a batch appends it to the result of the earlier ones. |
| `Dispatch.BindParams` | api.py:111-114 | Parameters are bound only when they form a non-empty mapping. `None` and `{}` both mean a call with no arguments. |
| `Dispatch.Normalize` | api.py:116-123 | A truthy return value is passed through unchanged. A falsy one becomes `"Executed Successfully"`. A `TypeError` becomes `"Error: Function <name> requires parameters."`. Any other exception becomes its message. A normal return never yields a falsy output. |
| `Dispatch.ExecuteFunction` | api.py:103-123 | A handler is invoked exactly when the name is on the allow-list, and it is that name's handler with the bound parameters. An unlisted name invokes nothing and outputs `"Unauthorized function access"`. The output is always a value; there is no error path. |
| `Dispatch.NoParamsOutcomes` | api.py:111-120 | Called without parameters, a registered handler that returns nothing yields the success marker. One that needs parameters yields the parameter message. |
| `Api.Engine.Execute` | api.py:126-145 | The prompt is recorded. `NotFound` (the 404 answer) is returned only when the resolver had no truthy match. Otherwise the response holds the matched name, the dispatcher's output for the request's parameters, the generated script and the session's history. |
| `Api.BatchItemOf` | api.py:155-168 | A truthy match is dispatched with no parameters, and its script is generated. Anything else gives the record `{None, "No matching function found", None}`. |
| `Api.Engine.ExecuteMultiple` | api.py:148-173 | There is exactly one result per prompt, in input order. Each result is the record for a resolver answer that satisfies the resolver promise for that prompt. The session's history is the old one with all prompts recorded in order, and an empty batch leaves the session memory untouched. The returned history is the session's final history. |
| `Api.BatchStep` | api.py:153-154 | The session memory after a batch grows by recording one prompt at a time, as the loop does. |
| `Api.ResolvedNameIsAllowed` | api.py:96-114 | When the index is in sync, a name the resolver returns is on the allow-list. Dispatching it calls that name's handler. |
| `Similarity.ExactVectorMatches` | api.py:81-100 | Suppose an entry holds exactly the query vector, and the metric is zero on equal vectors and never negative. Then the resolver matches, at distance zero. |
| `Api.OwnNameMatches` | api.py:47-48 | After a rebuild, submitting an allowed name itself as the prompt finds a match at distance zero, under the same metric assumptions. The match is an allowed name. |
| `CodeGenerator.GenerateCode` | code_generator.py:1-18 | The script opens with the import of the name. Its length is the fixed template's length plus three copies of the name. |
| `CodeGenerator.ImportsName` | code_generator.py:4 | The script contains the line `from automation import <name>`. |
| `CodeGenerator.CallsWithoutArguments` | code_generator.py:8 | The script contains the call `result = <name>()`, with no arguments. |
| `CodeGenerator.ReportsSuccess` | code_generator.py:12 | The script contains `<name> executed successfully.`. |
| `CodeGenerator.ErrorPlaceholderIsLiteral` | code_generator.py:14 | The escaped `{{e}}` comes out as the literal text `{e}`. It lies in the fixed tail that follows the last copy of the name. |
| `CodeGenerator.GenerateCodeInjective` | code_generator.py:3-18 | The name is the only varying part of the script: different names give different scripts. |

## Left out

- Sentence-transformer encoding (`api.py:19`, `api.py:47`, `api.py:74`). It is a foreign model with floating-point output, so it is an uninterpreted function `embed`.
- ChromaDB persistence and its metric computation (`api.py:22-23`). The collection is an in-memory map, and the metric is an uninterpreted function `dist` with `real` results. Distances are compared with the threshold as exact reals, not as IEEE doubles against the double nearest to 0.45.
- The `try`/`except` around deletion in `clear_and_store_functions` (`api.py:38-44`). A failure of the store is not modelled, so deletion always succeeds.
- Python reflection in `get_available_functions` (`api.py:28`). The allow-list is a parameter of the constructor.
- FastAPI, uvicorn and pydantic request marshalling (`api.py:6`, `api.py:59-66`, `api.py:176-177`). The 404 of the single-prompt endpoint is the `NotFound` response.
- `async` endpoints and concurrent access to the shared session memory. Every operation is modelled as running alone.
- Logging calls throughout `api.py`.
- The bodies of the automation functions (`automation_functions.py`). They are operating-system, browser and filesystem side effects; handlers are abstract and their side effects are not modelled.
- A handler's outcome is modelled as fixed for given arguments: the same handler called twice with the same parameters gives the same outcome. So two prompts of one batch that resolve to the same name get the same output in the model, and so do repeated single-prompt requests. In the program, handlers that read live state (`get_cpu_usage`, `get_ram_usage`, `list_files`) can return different outputs on different calls.
- `function_registry.py` and `check.py`. They are I/O scripts outside the engine.
- Handler return values are limited to `None`, strings and integers. Exceptions that do not derive from `Exception` (`KeyboardInterrupt`, `SystemExit`) are not modelled, so they cannot escape the dispatcher in the model.
- Api.Engine.ExecuteMultiple: the resolver answers that its results are built from are a ghost out-parameter. This states that such answers exist, one per prompt; it does not fix them, because the nearest-neighbour tie-break is left open.
