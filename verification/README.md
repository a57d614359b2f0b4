# Rescue report intake: a Dafny model

This project models the core of a small emergency-rescue intake service.
Field users submit reports (phone number, coordinates, free-text message).
Operators then update those reports, change their status and list them.

The model covers five parts:

- **The report store** (`db.py`, module `Store` in `store.dfy`). The store is a list of report records. `create_report` appends a fresh `pending` record. `update_report` merges a request body into the *first* record, in list order, whose `id` equals the body's `id` **or** whose `phone` equals the body's `phone`. `update_status` matches by `id` only. `list_reports` returns the list as it is, in insertion order. The module-level list becomes an explicit store value, and each operation returns the new store together with its result.
- **The request handlers** (`app.py`, module `Api` in `api.dfy`), without the web framework. `report_create` checks that `phone`, `lat`, `lng` and `message` are present, in that order, and answers 400 naming the first missing key. `report_update` requires an `id` or `phone` key. `rescue_update_status` accepts only the four statuses `pending`, `processing`, `done` and `holding`. When the store finds no match, the handler answers 404.
- **The server as a state machine** (module `Lifecycle` in `lifecycle.dfy`). It feeds any sequence of requests through the handlers and proves these invariants:
  - no report is ever deleted or re-identified;
  - every persisted status is one of the four allowed names;
  - ids stay unique when the id generator yields fresh ids for accepted creations;
  - listing shows the accepted creations in arrival order.
- **The guard in front of the urgency classifier, and the label cleaning** (`train_model.py`, module `Classifier` in `classifier.dfy`). A message that is not a non-empty string, or whose stripped text is shorter than 3 characters, all digits, or free of letters, gets `("Low", 1.0, {"Low": 1.0})` without the model being consulted. The training labels are cleaned by dropping blank ones, stripping the rest and fixing the misspelling `Citical`.
- **Two pure string computations of the browser script** (`script.js`, module `Client` in `client.dfy`):
  - the choice of alert type, icon and title in `showAlert`;
  - the assembly of an address text from a reverse-geocoding answer in `reverseGeocode`.

Request bodies are maps from keys to JSON values (`Values.Value`). Python's `==` on those values is `Values.PyEq`, so `True == 1` and `1 == 1.0` hold as they do in Python. Two operations need values from outside the code: `uuid.uuid4()` and `datetime.utcnow()`. Both become parameters (`newId`, `now`) of the create operation. The trained classifier is a function parameter `classify`. Python's character classes (`isspace`, `isdigit`, `isalpha`) are a record of predicates, `CharClasses`. In `reverseGeocode`, the coordinate fallback text is a parameter `coords`. An answer that the network or parsing lost is `None`.

Some behaviour is modelled exactly as the code has it, because the model follows the code.

The match test of `update_report` is `r["phone"] == data.get("phone")`. When the body has no `"phone"` key, the right-hand side is `None`. So an update that names only an `id` also matches any earlier record whose phone is null. Such records exist, because creation checks only that the key is present, not its value. `Store.IdOnlyUpdateMatchesNullPhone` states this in general. `Store.IdOnlyUpdateCanRewriteAnotherReport` shows a concrete case: an update for report `b` rewrites report `a`.

Several features one might expect of such a service are not in this code:

- an urgency label set at creation, behind a confidence gate of 0.8;
- an `updated_at` timestamp;
- newest-first listing;
- resolution by `id` before `phone`;
- a store-level re-check of the status;
- a store-unavailable error.

None of these is modelled.

## Model

| member | source | states |
|---|---|---|
| Values.PyEq | db.py:24 | A boolean equals a number, or a number equals a number, exactly when their numeric values agree. A `True` counts as 1 and a `False` as 0. Any other pair can be equal only if both are the same kind. Lists must have the same length, and objects the same keys. |
| Values.PyEqReflexive | db.py:24 | Every decoded value equals itself, so a body carrying a stored record's own id or phone selects a record. |
| Values.PyEqString | db.py:37 | A string equals exactly the same string and nothing else, so a stored id (always a string) is matched only by that id. |
| Values.PyEqNull | db.py:24 | `None` equals only `None`, so a body without a `"phone"` key matches exactly the records whose phone is null. |
| Values.PyEqSymmetric | db.py:24 | Equality of decoded values does not depend on the order of the two sides. |
| Store.FindFirst | db.py:23-24 | The loop stops at the first record, in list order, that the match test selects. The result is `None` exactly when no record is selected. |
| Store.CreateReport | db.py:7-20 | Creation appends exactly one record at the end and leaves the earlier records unchanged. The new record is `pending` and carries the generated id and creation time. `phone`, `lat`, `lng`, `message` and `ts` are copied from the body, or are null when absent. `meta` defaults to an empty object. |
| Store.CreateIgnoresOtherKeys | db.py:8-18 | Body keys other than the six copied ones have no effect on the created record. |
| Store.Merge | db.py:25-28 | `message`, `lat`, `lng` and `meta` are each replaced exactly when the body has that key, and `meta` is replaced whole. `id`, `phone`, `ts`, `status` and the creation time never change. |
| Store.MergeIdempotent | db.py:25-28 | Merging the same body into a record twice gives the record that one merge gives. |
| Store.UpdateReport | db.py:22-30 | The result is `None` exactly when no record matches by id or by phone, and then the store is unchanged. Otherwise only the first match is rewritten, and it is rewritten with the merge. Every other record and the length stay the same. |
| Store.UpdateReportIdempotent | db.py:24-28 | Applying the same update twice gives the store and the record that one application gives. |
| Store.IdOnlyUpdateMatchesNullPhone | db.py:24 | Without a `"phone"` key, a record is selected exactly when its id matches or its phone is null. |
| Store.IdOnlyUpdateCanRewriteAnotherReport | db.py:23-29 | With reports `a` (phone null) and `b` in that order, an update that names `b` rewrites `a` and leaves `b` alone. |
| Store.UpdateStatus | db.py:35-40 | The result is `None` exactly when no record has the id, and then the store is unchanged. Otherwise only the status of the first record with that id changes. |
| Store.UpdateStatusIdempotent | db.py:35-39 | Repeating a status change changes nothing further. |
| Store.ListReports | db.py:32-33 | Listing returns the store itself: every report, in insertion order. |
| Api.FirstMissing | app.py:15-18 | The result is the first key of the list that the body lacks, or `None` exactly when all the keys are present. |
| Api.FirstMissingRequired | app.py:15-18 | The first missing key is named in the checking order `phone`, `lat`, `lng`, `message`. |
| Api.ReportCreate | app.py:13-20 | A missing key gives 400 with "`<key>` is required" for the first missing key, and the store is unchanged. With all four keys present, whatever their values, the answer is 201. Exactly one pending record with the fresh id is appended, and the answer carries the record the store created. |
| Api.ReportUpdate | app.py:26-33 | With neither an `id` nor a `phone` key, the answer is 400 and the store is unchanged. The answer is 404 exactly when the store finds no match, and the store is then unchanged. Otherwise the answer is 200 with the updated record. |
| Api.RescueList | app.py:38-41 | Listing answers 200 with the whole store and leaves the store unchanged. |
| Api.RescueUpdateStatus | app.py:47-57 | A status outside the four allowed strings gives 400, and the store is unchanged. An allowed status with an unknown id gives 404, and the store is unchanged. Otherwise the answer is 200 with the record the store rewrote, now carrying the requested status. |
| Api.ReportUpdateIdempotent | app.py:26-33 | Sending the same update request twice gives the same store and the same answer as sending it once. |
| Api.CreatedReportIsUpdatable | app.py:19-33 | After a successful create, an update that names the new id succeeds with 200. |
| Lifecycle.UpdateStep | db.py:22-30 | An update request keeps the length of the store and rewrites at most one record. It never changes any record's id, phone, ts, status or creation time. |
| Lifecycle.StatusStep | app.py:51-54 | A status request changes at most one record. It changes only that record's status, and only to one of the four allowed names. |
| Lifecycle.HandleStep | app.py:12-57 | Every request keeps all stored reports in place and keeps statuses allowed. Only an accepted create adds an id, and it adds it at the end. |
| Lifecycle.RunKeepsStatusesAllowed | app.py:51-54 | Through the handlers, every persisted status stays one of `pending`, `processing`, `done` and `holding`. |
| Lifecycle.RunKeepsReports | db.py:19-40 | Whatever requests arrive, no report is deleted or moved, and none changes its id, phone, ts or creation time. |
| Lifecycle.RunListsInInsertionOrder | db.py:19-33 | The listed ids are the original ids followed by the ids of the accepted creations, in arrival order. |
| Lifecycle.RunKeepsIdsUnique | db.py:9 | Ids stay unique provided the ids given to accepted creations are never repeated and never already stored. |
| Lifecycle.ListIsReadOnly | app.py:39-41 | Listing leaves the store unchanged and answers 200 with the whole store. |
| Classifier.TrimLeft | train_model.py:115 | The result is what remains after the leading whitespace is removed. It is a suffix of the input and starts with a non-space. |
| Classifier.TrimRight | train_model.py:115 | The result is what remains after the trailing whitespace is removed. It is a prefix of the input and ends with a non-space. |
| Classifier.Admit | train_model.py:110-129 | The model is consulted exactly when the message is a string whose stripped text has length at least 3, is not all digits and contains a letter. The model then receives exactly that stripped text. |
| Classifier.PredictLabel | train_model.py:108-136 | A non-string or empty message, a stripped text shorter than 3, an all-digit text or a text without letters each give `("Low", 1.0, {"Low": 1.0})`. Otherwise the answer is the classifier's answer on the stripped text. |
| Classifier.StripIdempotent | train_model.py:18-21 | Stripping an already stripped string changes nothing, so the labels stored at train_model.py:21 have no surrounding whitespace left. |
| Classifier.StripIgnoresSurroundingSpace | train_model.py:115 | Whitespace added around a string does not change its stripped form. |
| Classifier.PredictLabelIgnoresSurroundingSpace | train_model.py:115-129 | The guard outcome and the prediction do not depend on leading or trailing whitespace. |
| Classifier.DigitTestIsSubsumed | train_model.py:121-127 | When no digit is a letter, the all-digits test decides nothing that the letter test does not already decide. |
| Classifier.DigitsMessageIsLow | train_model.py:121-123 | The message `123123123` gets the degenerate Low answer. |
| Classifier.FixLabel | train_model.py:22 | `Citical` becomes `Critical`, every other label is unchanged, and no label equals `Citical` afterwards. |
| Classifier.CleanLabels | train_model.py:18-22 | Cleaning never adds rows. Every kept row has a label, and that label is not `Citical`. |
| Classifier.CleanLabelsOneRow | train_model.py:18-22 | A row whose label is present and not blank is kept with its message and the stripped label, `Citical` corrected to `Critical`. Any other row is dropped. |
| Classifier.CleanLabelsAreClean | train_model.py:18-22 | After cleaning, no label is missing or blank, every label is stripped, and none is `Citical`. |
| Classifier.CleanLabelsAppend | train_model.py:18-22 | Cleaning works row by row: it distributes over concatenation, so kept rows keep their order. Together with `CleanLabelsOneRow`, this fixes the result on every input. |
| Classifier.CleanLabelsIdempotent | train_model.py:18-22 | Cleaning cleaned rows changes nothing. |
| Client.AlertType | script.js:9-16 | An explicit type other than `info` is kept. For `info` or an omitted type, a success or thanks phrase gives `success`, even when error words are also present. Otherwise an error word gives `error`, and `info` stays `info`. |
| Client.ShowAlert | script.js:30-48 | The icon and the title are a function of the final type: success gives ✓ with "Thành công", error gives ✕ with "Lỗi", and anything else gives ℹ with "Thông báo". |
| Client.AlertTypeIdempotent | script.js:10-16 | Feeding the settled type back in as the explicit type changes nothing. |
| Client.HeaderDistinguishesThreeKinds | script.js:32-48 | Two types get the same header exactly when they agree on being `success` and on being `error`. |
| Client.ThanksBeatsErrorWords | script.js:11-15 | A message containing any success or thanks phrase and any error word shows the success header, whether the type is omitted or `info`. |
| Client.AddressParts | script.js:197-203 | The parts are the present components, in the order house number, road, suburb or else neighbourhood, city or else town or else village, then state. Every part is non-empty and there are at most five. |
| Client.ReverseGeocode | script.js:176-215 | A lost answer gives the coordinates. An answer with parts gives the parts joined by ", ". Otherwise the answer gives the display name when it is non-empty, and the coordinates when it is not. |
| Client.SplitJoin | script.js:206 | Splitting a join of comma-free components at ", " gives the components back. |
| Client.AddressRoundTrip | script.js:199-206 | When no part contains a comma, the address text splits back into exactly the assembled parts. |
| Client.AddressPreferences | script.js:201-202 | A present suburb makes the neighbourhood irrelevant. A present city makes town and village irrelevant. A present town makes village irrelevant. |
| Client.AddressOrder | script.js:199-203 | The house number comes first when present, and the state comes last when present. With no component present, there are no parts. |

## Left out

- Flask routing, CORS, JSON decoding and `app.run` (app.py:2-7, 69-70): framework plumbing. A request is its decoded body.
- The health endpoint (app.py:62-64): it answers a constant and touches no state.
- A request body that is not a JSON object is not modelled. Depending on the handler and the body's contents, Python then answers 400, 404 or a server error. For example, a string body turns the key checks into substring tests. The model takes every body to be an object.
- `uuid.uuid4()` and `datetime.utcnow()` become parameters. Id uniqueness is proved under the assumption that the ids given to accepted creations are fresh.
- Concurrent requests on the shared list: the code has no locking, and the model serves requests one at a time.
- NaN and Infinity number literals, and the difference in printing `1` and `1.0`: numbers are exact reals.
- Values.PyEq: numbers are exact reals, not Python's ints and doubles, so two cases differ from Python. Python rounds float literals to doubles, so `0.1 == 0.10000000000000001` holds there but not here. Python compares an int with a float exactly, so `9007199254740993 == 9007199254740993.0` fails there but holds here. Only the phone test of db.py:24 inherits these two differences. Stored ids and the allowed statuses are strings, and a string equals only the same string (`Values.PyEqString`). So the id tests (db.py:24, 37) and the status check (app.py:52) answer as Python does.
- Classifier.PredictLabel: the message is a decoded JSON value. Other Python objects the function could be handed are not modelled.
- The TF-IDF vectoriser, the SVM, the label encoder, the CSV and model-file I/O, and the training and evaluation prints in `train_model.py`: foreign libraries and floating-point numerics. The classifier is the parameter `classify`.
- Python's Unicode character classes are abstract predicates. Properties that need concrete facts about them name those facts as preconditions.
- `test_model.py` is not part of this model: it is a direct call into the loaded model.
- In `script.js`: building the DOM, geolocation, `fetch` to the geocoding service and the backend, timers, animations, `submitForm`, and the `toFixed(6)` formatting of coordinates.
- Client.AlertType: the type is a string or omitted. A `null` or non-string type, and a non-string message, are not modelled.
- Client.ReverseGeocode: address components are strings or absent. Non-string components are not modelled.
