# Trade-finance component model

A Dafny model of the React component `TradeFinanceApp`, the front end of a
trade-finance application. It keeps a list of Letter of Credit (LC) records,
a draft form for a new LC, a `loading` flag and an optional error message.
Two handlers change that state: `createLC` appends a record built from the
draft and the id the backend assigns, and `submitDocuments` attaches the
document hash the backend returns to the record(s) with a given id.

- `records.dfy`, module `Records`: the values (draft, LC record, optional
  string), the two list transformations as pure functions (append, and
  update-by-id as the `map` of the source), the render conditions, and
  lemmas about them.
- `component.dfy`, module `Component`: class `TradeFinanceApp` whose fields
  are the four pieces of component state; the handlers are methods whose
  contracts tie the new state to the old one through the `Records` functions.
  The HTTP response each handler awaits is a method argument,
  `Response<T> = Ok(value) | Failed(message)`. `ExampleSession` is a client
  that replays a create / failed create / upload sequence from the contracts
  alone.

JavaScript truthiness is written out (`Records.Truthy`): the error banner
(`error && …`) is hidden for an empty message, and the upload input
(`!lc.documentHash && …`) stays offered for an empty hash. A `Failed`
message is the message of whatever was thrown inside the handler's `try`:

- the transport's error when the request cannot be completed;
- the JSON parser's error when the body is not JSON, since `response.json()`
  is awaited before `response.ok` is tested, so this holds for an ok
  response too;
- a type error when the body is `null` and `data.error` or `data.lcId` is read;
  an ok `null` body for an upload is read only inside the `map` callback for a
  record whose id matches, so when no record matches nothing is thrown and
  the error stays cleared;
- `new Error(data.error)` on a non-ok JSON response, whose message is `""`
  (no banner) when the body has no `error` field.

The backend of this repository takes `lcId` from the event log's `data`
(trade-finance-backend.py:70), while the upload route only matches an integer
id (trade-finance-backend.py:99). If `lcId` arrives as a hex string, an upload
is answered with an HTML not-found page and ends in the parser case; if the
web3 library hands back raw bytes there, `jsonify` cannot serialise them and
the create itself already fails.

## Model

| member | source | states |
|---|---|---|
| Component.TradeFinanceApp.constructor | trade-finance-frontend.tsx:8-16 | initial state: no records, a draft of four empty strings, not loading, no error; so the empty-list notice shows, the banner is hidden and the create button enabled |
| Component.TradeFinanceApp.EditDraft | trade-finance-frontend.tsx:83-119 | an input's onChange replaces exactly one draft field and changes no other state, so what the list renders (the empty-list notice at line 160) is unaffected |
| Component.TradeFinanceApp.CreateLC | trade-finance-frontend.tsx:20-44 | on success the list is the old list with the draft-plus-id record appended, the draft is reset, the error is cleared; on failure list and draft are unchanged and the error is the message; loading always ends false, so the button (lines 121-122) is enabled and reads "Create LC"; the banner (`error && …`, line 128, with JavaScript truthiness) shows iff the call failed with a non-empty message; once records exist the empty-list notice (line 160) stays hidden, and after a success it is hidden and the new record offers the upload input (line 149) |
| Component.TradeFinanceApp.SubmitDocuments | trade-finance-frontend.tsx:46-71 | on success the list is updated by id with the returned hash and the error is cleared; on failure the list is unchanged and the error is the message; ids and their order never change; the draft is untouched; loading always ends false, so the button (lines 121-122) is enabled and reads "Create LC"; the banner (line 128) shows iff the call failed with a non-empty message; the empty-list notice (line 160) does not change; after a success with a non-empty hash no record with that id offers the upload input (`!lc.documentHash`, line 149) |
| Records.SetField | trade-finance-frontend.tsx:86-116 | the edited field takes the new value and every other field keeps its value |
| Records.FromDraft | trade-finance-frontend.tsx:37 | the new record carries exactly the draft's four fields, the backend's id and no document hash |
| Records.AppendRecord | trade-finance-frontend.tsx:37 | the result is one longer, the old list is its unchanged prefix, and the last record carries the draft's four fields, the given id and no document hash |
| Records.AttachDocument | trade-finance-frontend.tsx:63-65 | same length; each record whose id matches gets the hash and is otherwise identical; each other record is unchanged |
| Records.AppendRecordIds | trade-finance-frontend.tsx:37 | a create adds exactly its id at the end of the sequence of ids |
| Records.CreatedRecordOffersUpload | trade-finance-frontend.tsx:149-162 | the new record offers the upload input and the empty-list notice is hidden after a create |
| Records.DuplicateIdAccepted | trade-finance-frontend.tsx:37 | creating with an id already present yields two records with that id: uniqueness is not checked |
| Records.AttachDocumentIds | trade-finance-frontend.tsx:63-65 | an upload keeps the ids of all records and their order |
| Records.AttachDocumentNoMatch | trade-finance-frontend.tsx:63-65 | an upload for an id no record has leaves the list unchanged |
| Records.AttachDocumentOverwrites | trade-finance-frontend.tsx:63-65 | a second upload for the same id replaces the first hash |
| Records.AttachDocumentCommutes | trade-finance-frontend.tsx:63-65 | uploads for two different ids commute |
| Records.AttachDocumentWithdrawsUpload | trade-finance-frontend.tsx:149-157 | after an upload, a matching record offers the upload input again iff the returned hash is empty |
| Records.CreateThenUpload | trade-finance-frontend.tsx:37-65 | creating a record under a fresh id and uploading against it stamps only that record, at the end of the list |

## Left out

- The `fetch` calls, JSON encoding of the request and response, the
  `FormData` packaging and the choice of `files[0]`: network I/O, replaced by
  the `Response` argument of each handler.
- CreateLC and SubmitDocuments: each handler is one atomic transition from
  the current state, so the model does not show the asynchronous
  interleaving of handlers nor React's setter semantics. Not captured:
  the lost updates possible when two calls overlap (each builds its list from
  the snapshot taken when it started); the in-flight state, where `loading`
  is true, the create button is disabled and the error is already cleared;
  a request that never resolves (there is no timeout), which leaves
  `loading` true for good. In the model `CreateDisabled` is therefore false
  in every reachable state, and the `loading := true` at the start of both
  methods is always overwritten before they return.
- CreateLC: a 2xx JSON body without `lcId` creates a record whose id is
  `undefined`; `Response<string>` carries a string id and cannot express it.
- SubmitDocuments: likewise a 2xx JSON body without `documentHash` stamps
  `undefined`, which leaves the upload input offered; the model's
  `Ok(hash)` always carries a string.
- The browser's `required` check on the four inputs: it is not code the
  component runs, so `CreateLC` has no precondition on the draft.
- JSX layout and styling and the record fields shown
  in each card; only the boolean render conditions are modelled.
- The backend (`trade-finance-backend.py`): Flask routing, web3 transaction
  building and signing, SHA-256 hashing and address validation are library
  and blockchain calls; only their response shape enters the model.
