# porkbundns record handler, modelled in Dafny

porkbundns keeps a domain's DNS zone at the Porkbun provider in line with a
CSV declaration file. Each row of that file has the columns `host`, `type`
and `answer`. A `RecordHandler` reads the file and turns each row into at
most one POST to the provider's API: `create`, `editByNameType` or
`deleteByNameType`. It goes in row order until a call raises, and logs how
each call went. Some rows post nothing: an unknown action posts nothing, and
`recordhandler.py` rejects an unknown record type before posting. The rows
after a call that raises are never attempted (see the behaviours listed
below).

The repository holds two diverging copies of the handler. This project models
both, each in its own module.

- `SharedPayload` models `porkbundns/dns/record_handler.py`.
  - The handler keeps one `base_payload` dict with the two credentials.
  - Create and update merge it into a fresh dict.
  - Delete posts `base_payload` itself.
  - A static `call_api` posts the payload, then pops both credentials from the
    dict it was given, then logs what is left.
  - `change_records` supports update, create and delete.
- `TypeChecked` models `porkbundns/dns/recordhandler.py`.
  - Create and update first check the record type against a set of known
    types. An unknown type logs an error and raises `ConnectionError`.
  - Each call builds its own payload, starting from the credentials.
  - `change_records` tests the action anew for every row, and supports only
    update and create.

Shared pieces:

- `Dicts` models a Python `dict` of strings. It is an insertion-ordered list
  of entries with distinct keys, because `json.dumps` writes a dict's entries
  in insertion order. It covers display, item assignment, `update`, `pop` and
  `get`. The class `Dicts.Dict` is a dict that is updated in place.
- `Effects` holds the outside world.
  - A `World` object records every request posted and every call to the
    logger, with the level and the arguments handed to it.
  - The network is an oracle: for each request, `Reply` is either a status
    code or a connection failure.
  - A request counts as posted once `requests.post` is called, even when the
    connection then fails.
- `Batches` defines `Run`, the specification of a batch. It calls the handler
  once per row, in row order, each call starting from the state the previous
  one left. It stops at the first call that raises, since neither copy's
  `try` catches anything but a missing file.

The handler methods are imperative. Each one is proved against a
specification function: `CreateStep`, `UpdateStep`, `DeleteStep`, `RowStep`,
`Run` and `ChangeRecordsEffect`. The lemmas state what the source promises
about those functions.

Three behaviours of the code are easy to miss:

- In `recordhandler.py`, an unknown record type aborts the whole batch,
  because the type check raises outside the `try`. It does not skip just that
  row.
- In `record_handler.py`, when the first two posts return, a delete batch of
  two or more rows stops at the second row with a `KeyError`. The first delete
  has already popped the credentials from the shared `base_payload`. A
  connection failure is caught before any `pop`, so it leaves `base_payload`
  whole.
- In `record_handler.py`, `change_records` passes `(host, type, answer)` to
  `update_record`, whose parameters are declared `(record_content,
  record_type, record_name)`. The host therefore goes into the body and the
  answer into the URL.

## Model

| member | source | states |
|---|---|---|
| SharedPayload.RecordHandler.constructor | porkbundns/dns/record_handler.py:18-30 | the handler keeps the four settings, and `base_payload` is a fresh dict holding exactly apikey then secretapikey |
| SharedPayload.RecordHandler.CallApi | porkbundns/dns/record_handler.py:32-50 | posts the payload as it stood, then leaves the payload, the log and the return value as `call_api` does: a connection failure is caught and the payload is handed whole to `logger.error`, each `pop` raises `KeyError` on a missing credential, and the stripped payload is handed to the logger at error level unless the status is 200 |
| SharedPayload.CallApiOnResponse | porkbundns/dns/record_handler.py:37-47 | once the post returns, `KeyError` is raised exactly when a credential is missing; otherwise both credentials are gone from the payload, every other key keeps its value, the keys stay distinct, the logger is called once with the credential-free payload (info exactly for status 200) and the response is returned |
| SharedPayload.CallApiOnConnectionFailure | porkbundns/dns/record_handler.py:49-50 | for any payload, even one without credentials, a connection failure leaves the payload whole, returns `None` and makes exactly one error-level logger call, handing it the unstripped payload itself as its argument; so a payload holding the API key hands it to the logger |
| SharedPayload.RecordHandler.CreateRecord | porkbundns/dns/record_handler.py:52-67 | posts to `endpoint/create/domain` the literal entries merged with `base_payload`, logs and returns what `call_api` does on that payload, and leaves `base_payload` unchanged |
| SharedPayload.CreateRecordRequest | porkbundns/dns/record_handler.py:59-67 | with the initial `base_payload` the body is exactly type, name, content, apikey, secretapikey in that order; the call returns normally, keeps `base_payload`, and after a response logs only type, name and content |
| SharedPayload.RecordHandler.UpdateRecord | porkbundns/dns/record_handler.py:69-81 | posts to `editByNameType/domain/type/name` the content entry merged with `base_payload`, logs and returns what `call_api` does, and leaves `base_payload` unchanged |
| SharedPayload.UpdateCallSiteSwapsHostAndAnswer | porkbundns/dns/record_handler.py:97 | the update call site puts the row's host in the body's content and its answer in the URL's name segment; the call returns normally and keeps `base_payload` |
| SharedPayload.RecordHandler.DeleteRecord | porkbundns/dns/record_handler.py:83-88 | posts `base_payload` itself, and `base_payload` becomes what `call_api` leaves of that dict |
| SharedPayload.DeleteStripsSharedPayload | porkbundns/dns/record_handler.py:83-88 | once the post returns, a delete leaves `base_payload` without either credential and with every other key's value unchanged |
| SharedPayload.DeleteEmptiesPayload | porkbundns/dns/record_handler.py:85-88 | a delete with the initial `base_payload` posts both credentials and leaves `base_payload` empty |
| SharedPayload.DeleteOfEmptyRaises | porkbundns/dns/record_handler.py:41 | a delete with an empty `base_payload` posts an empty body and, once the post returns, raises `KeyError` |
| SharedPayload.DeleteBatchAbortsAtSecondRow | porkbundns/dns/record_handler.py:100-101 | when the first two posts return, a delete batch of two or more rows posts once with credentials and once with an empty body, then raises `KeyError`; no later row is attempted, and `base_payload` ends empty |
| SharedPayload.ParseAction | porkbundns/dns/record_handler.py:96-103 | "update" selects update, "create" create and "delete" delete, each exactly for that string; any other action selects none |
| SharedPayload.RecordHandler.ApplyRow | porkbundns/dns/record_handler.py:96-101 | one element of the list comprehension makes the call `RowStep` describes, with the call site's argument order |
| SharedPayload.RecordHandler.ApplyAll | porkbundns/dns/record_handler.py:96-101 | the list comprehension leaves `base_payload`, the requests, the log and the completion exactly as `Run` over the rows describes |
| SharedPayload.RecordHandler.ChangeRecords | porkbundns/dns/record_handler.py:90-105 | `change_records` ends as `ChangeRecordsEffect` describes: one error for a missing file or an unknown action, otherwise the batch |
| SharedPayload.IntactCreateOrUpdate | porkbundns/dns/record_handler.py:52-81 | with the initial `base_payload`, a create or update returns normally, keeps `base_payload`, posts once and calls the logger once; when the post returned, the payload handed to the logger is credential-free and the level is info exactly for status 200; after a connection failure the level is error and the payload handed over still holds the API key |
| SharedPayload.CreateOrUpdateBatchSendsEveryRow | porkbundns/dns/record_handler.py:96-99 | a create or update batch posts exactly one request per row in row order, whatever the record types and replies, returns normally and keeps `base_payload`; the per-row logger arguments follow the same credential rules |
| SharedPayload.NothingPostedWithoutRowsOrAction | porkbundns/dns/record_handler.py:102-105 | a missing file or an unknown action posts nothing, logs one error and keeps `base_payload` |
| TypeChecked.CheckRecord | porkbundns/dns/recordhandler.py:11-14 | returns normally exactly for a known type; otherwise it logs one error and raises `ConnectionError`; it never posts |
| TypeChecked.RecordHandler.constructor | porkbundns/dns/recordhandler.py:18-29 | the handler keeps the four settings read from the secrets |
| TypeChecked.RecordHandler.NewPayload | porkbundns/dns/recordhandler.py:52 | a fresh dict holding exactly apikey then secretapikey, the display both calls start from |
| TypeChecked.RecordHandler.NewCreatePayload | porkbundns/dns/recordhandler.py:52-56 | the credentials display with name, type and content assigned in that order |
| TypeChecked.RecordHandler.NewUpdatePayload | porkbundns/dns/recordhandler.py:95-98 | the credentials display with content assigned |
| TypeChecked.RecordHandler.PostAndLog | porkbundns/dns/recordhandler.py:59-71 | posts the payload once and logs one line: all three record fields at error level on a connection failure, the name alone at error level on a status other than 200, all three at info level on 200 |
| TypeChecked.RecordHandler.CreateRecord | porkbundns/dns/recordhandler.py:31-71 | the requests, the log and the completion are those of `CreateStep`: the type check runs first, and a rejected type posts nothing and raises |
| TypeChecked.RecordHandler.UpdateRecord | porkbundns/dns/recordhandler.py:73-114 | the requests, the log and the completion are those of `UpdateStep` |
| TypeChecked.InvalidTypeSendsNothing | porkbundns/dns/recordhandler.py:50 | a create or update with an unknown type posts nothing, logs only the type error and raises `ConnectionError` |
| TypeChecked.CreateRecordRequest | porkbundns/dns/recordhandler.py:50-62 | with a known type, create posts once to `endpoint/create/domain` a body of exactly apikey, secretapikey, name, type, content in that order, and returns normally |
| TypeChecked.UpdateCallSiteMatches | porkbundns/dns/recordhandler.py:138 | the update call site puts the row's host in the URL's name segment and its answer in the body's content, next to the two credentials |
| TypeChecked.LoggedLine | porkbundns/dns/recordhandler.py:63-71 | a logger call after a post is at info level exactly for status 200, and its arguments hold no credential key |
| TypeChecked.ValidRow | porkbundns/dns/recordhandler.py:136-140 | a create or update row with a known type returns normally, posts its request and logs one line, at info level exactly for status 200 |
| TypeChecked.RecordHandler.ApplyRow | porkbundns/dns/recordhandler.py:137-142 | one pass of the loop makes the call `RowStep` describes |
| TypeChecked.RecordHandler.ApplyAll | porkbundns/dns/recordhandler.py:136-142 | the loop leaves the requests, the log and the completion exactly as `Run` over the rows describes |
| TypeChecked.RecordHandler.ChangeRecords | porkbundns/dns/recordhandler.py:116-144 | `change_records` ends as `ChangeRecordsEffect` describes |
| TypeChecked.ValidBatchSendsEveryRow | porkbundns/dns/recordhandler.py:136-140 | while every record type is known, a create or update batch posts one request per row in row order and returns normally; a failed post does not stop the next row |
| TypeChecked.InvalidTypeAbortsBatch | porkbundns/dns/recordhandler.py:132-144 | the first row with an unknown type ends the batch: the rows before it post once each, it posts nothing and logs the type error, `ConnectionError` escapes `change_records`, and no later row is attempted |
| TypeChecked.UnknownActionLogsEveryRow | porkbundns/dns/recordhandler.py:141-142 | any action other than create and update, delete included, posts nothing and logs one error per row, running to the end |
| TypeChecked.LogsCarryNoCredentials | porkbundns/dns/recordhandler.py:136-142 | whatever the rows, action and replies, no logger call is handed a credential key |
| TypeChecked.RowIgnoresCredentials | porkbundns/dns/recordhandler.py:136-142 | one row's call makes the same logger calls, returns the same way and posts as many requests under any other API key and secret |
| TypeChecked.LogIgnoresCredentials | porkbundns/dns/recordhandler.py:132-144 | the credential values never reach the logger: under any other API key and secret, the batch makes exactly the same logger calls, ends the same way and posts as many requests |
| TypeChecked.NothingPostedWhenFileMissing | porkbundns/dns/recordhandler.py:143-144 | a missing file posts nothing and logs one error naming the file |
| Dicts.Dict.constructor | porkbundns/dns/record_handler.py:59-63 | a dict display holds its entries assigned left to right, and its keys are distinct |
| Dicts.AssignGet | porkbundns/dns/recordhandler.py:54-56 | after `d[k] = v`, `k` maps to `v`, every other key keeps its value, and the keys stay distinct |
| Dicts.AssignNew | porkbundns/dns/recordhandler.py:54-56 | assigning a key the dict does not hold yet appends it at the end |
| Dicts.Dict.Set | porkbundns/dns/recordhandler.py:54-56 | item assignment in place, with the same facts about every key |
| Dicts.MergeDistinct | porkbundns/dns/record_handler.py:64 | `update` keeps a dict's keys distinct |
| Dicts.MergeGet | porkbundns/dns/record_handler.py:64 | after `d.update(other)`, each key maps to `other`'s value where `other` has the key, and otherwise to its old value |
| Dicts.MergeFresh | porkbundns/dns/record_handler.py:64 | updating with entries whose keys are all new appends them in order |
| Dicts.Dict.Update | porkbundns/dns/record_handler.py:64 | `update` in place assigns `other`'s entries one by one, in `other`'s order |
| Dicts.RemoveGone | porkbundns/dns/record_handler.py:41-42 | after removing `k` the key is gone and the keys stay distinct |
| Dicts.RemoveGet | porkbundns/dns/record_handler.py:41-42 | removing `k` leaves every other key's value unchanged |
| Dicts.Dict.Pop | porkbundns/dns/record_handler.py:41-42 | `pop` returns the value under `k` and removes it; a missing key stands for `KeyError` and leaves the dict unchanged |
| Batches.RunAgrees | porkbundns/dns/recordhandler.py:136-142 | two kinds of call that, row by row, make the same logger calls, return the same way and post as many requests make batches that do the same |
| Batches.RunStopsOnRaise | porkbundns/dns/recordhandler.py:132-144 | once a row's call raises, no later row changes anything: the exception leaves the loop |

## Left out

- The provider's HTTP API is an oracle. Each row's post gets a `Reply`, either a status code or a connection failure. Response bodies are not modelled. `response.json()` failing on a body that is not JSON is not modelled either.
- `json.dumps` is not modelled. A request body is the ordered list of the payload's entries.
- `pd.read_csv` becomes a list of rows plus a flag saying the file is missing. A malformed file or missing columns are not modelled. Every cell is a string, although pandas may read numeric cells as numbers.
- Reading the secrets file, and the `exit(-1)` when it is missing, are left out. Both constructors take the four settings directly. A secrets file that lacks a key is not modelled either.
- The log records the logger's arguments, not the formatted text. Each call keeps its level and the dict or values handed to it. The type check's call is handed none of the record, so it is kept with no entries. What the logger then prints from these arguments is not modelled. For `logger.error(e, payload)` at `record_handler.py:50`, a lone dict argument is used as the mapping for the exception's text, so the credentials are not printed. For `logger.error(e, record_name, record_type, record_content)` at `recordhandler.py:71` and `:114`, formatting fails inside the logging module, which reports the error instead of writing the line.
- The set of known record types is a parameter. `dns/dns_types.py` is not part of this model.
- `_check_record` in `record_handler.py` is identical to the one in `recordhandler.py`, and nothing in `record_handler.py` calls it. It is modelled once, as `TypeChecked.CheckRecord`.
- The response object that `create_record`, `update_record` and `delete_record` return is reduced to its status code. The list that `change_records`' comprehensions build is discarded by the source and is not modelled.
- `porkbundns/main.py` and the tests are not part of this model.
- Exceptions other than `KeyError` and `requests.exceptions.ConnectionError` are not modelled.
