# sensedata-to-stitch in Dafny

This project models the sync job of sensedata-to-stitch in Dafny. The job reads
contacts, customers, NPS answers and tasks page by page from the Sensedata API. It
reshapes every record into a flat "upsert" envelope for the Stitch import API and
pushes each page's envelopes.

The model has three modules:

- `Json` (json.dfy) holds parsed JSON values and the Python operations the code
  applies to them. These are subscripting (`v[key]`, `v[0]`), truth testing,
  `== 0`, iteration and `len`. Each of them fails where Python raises, with one
  exception: `Head`, `Members` and `AsRows` fail a step early on values for
  which Python is bound to raise further down the same expression or record
  (for instance `"abc"[0]` succeeds in Python, and the key subscript after it
  fails).
- `StitchApi` (stitch_api.dfy) is the record transformer of
  stitch_api/stitch_api.py.
  - Each parser's `data` dictionary literal is a table of `Column(name, path)`
    entries, in source order. `Project` evaluates such a table the way Python
    evaluates the literal.
  - The contact `types` rule and the customer custom-field flattener are
    separate functions.
  - Every parser's batch loop is a method that is proved equal to `Batch`, a
    function that builds the batch row by row.
  - `ParseCustomFields` is the flattener's loop. It is proved equal to
    `FlattenCustomFields`.
  - `Transform` is the dispatch on the entity name.
- `SyncDriver` (sync_driver.dfy) is the nested entity/page loop of main.py.
  - The collaborators are the values in `Services`: the source API fetch, the
    transformer, the Stitch push (accepted or not), the clock and the
    configured client id.
  - `Sync` returns the run's log of `Fetched`/`Pushed` events and whether an
    exception ended it. It is proved equal to `RunFrom(svc, 0)`, the run as a
    function.
  - The loops are defined for any outcome of each iteration and each push.
    A `Pager` bundles those outcomes for one entity, `Pages` is the inner loop
    and `Run` the outer one. `PagesFrom` and `RunFrom` instantiate them with
    the collaborators. So the lemmas about the loops do not depend on the
    details of a fetch or a transform.
  - The lemmas about that function cover the page order, the 499-page bound,
    the stop at `count == 0`, exactly one push per delivered page, and the
    abort on the first failure.
  - `Wired(svc)` says that the transform collaborator is the `StitchApi`
    dispatch. Under it, `WiredDeliver` and `WiredPushes` carry the
    transformer's guarantees over to every pushed batch.

In two places the code is stricter than a reader might expect, and the model
follows the code:

- A record without `types` is a lookup failure (stitch_api/stitch_api.py:74), not
  a contact without `types_id`/`types_name`. Any truthy `types` value triggers
  the rule, not only a non-empty list.
- A customer without `custom_fields` is a lookup failure
  (stitch_api/stitch_api.py:246), not a no-op.

Failures carry no payload. `LookupFailed` stands for any KeyError, TypeError or
IndexError, and `HttpFailed` for a non-success HTTP status.

## Model

| member | source | states |
|---|---|---|
| Json.Get | stitch_api/stitch_api.py:45 | `v[key]`: the value under `key` of a dict that has it; a missing key or a value that is not a dict is a lookup failure |
| Json.Resolve | stitch_api/stitch_api.py:47 | a subscript chain such as `row['customer']['id']`, key by key from the left; its only failure is a lookup failure |
| Json.Head | stitch_api/stitch_api.py:75 | `v[0]` followed by a key subscript: the first element of a non-empty list, and a failure for everything else |
| Json.Truthy | stitch_api/stitch_api.py:74 | Python truth testing: `None`, `False`, `0`, `""`, `[]` and `{}` are false, everything else true |
| Json.IsZero | main.py:27 | Python `v == 0`, which also holds for `False` |
| Json.Members | stitch_api/stitch_api.py:246-248 | iterating `row['custom_fields']` and subscripting it by each member: a dict gives its pairs, an empty list or string gives none, everything else fails |
| Json.AsRows | main.py:31-34 | `len(temp_data[entity])` and the parser's `for row in data`: a list gives its elements, an empty dict or string gives none, everything else fails |
| Json.ResolveFailsAtPrefix | stitch_api/stitch_api.py:119-120 | a subscript chain such as `row['cs']['profile']['role']` fails whenever a prefix of it fails |
| StitchApi.EntityNamed | stitch_api/stitch_api.py:26-34 | the dispatch picks an entity only for the four names, and the picked entity has that name; it picks none exactly when no entity has the name |
| StitchApi.NamedEntity | stitch_api/stitch_api.py:26-34 | dispatching on an entity's own name selects that entity's parser |
| StitchApi.Project | stitch_api/stitch_api.py:44-237 | a `data` literal (lines 44-67, 89-135, 152-170 and 185-237) evaluated entry by entry from the left, a later entry overriding an earlier one with the same key; its only failure is a lookup failure |
| StitchApi.ContactFields | stitch_api/stitch_api.py:44-67 | the 22 entries of the contact literal, in source order |
| StitchApi.CustomerFields | stitch_api/stitch_api.py:89-135 | the 45 entries of the customer literal, in source order |
| StitchApi.NpsFields | stitch_api/stitch_api.py:152-170 | the 17 entries of the NPS literal, in source order |
| StitchApi.TaskFields | stitch_api/stitch_api.py:185-237 | the 51 entries of the task literal, in source order |
| StitchApi.TypesRule | stitch_api/stitch_api.py:74-76 | a missing `types` fails; a falsy `types` leaves `data` as it is; a truthy one adds exactly `types_id` and `types_name` from `types[0]` and keeps every other key, or fails when `types[0]['id']` or `['name']` cannot be read |
| StitchApi.ContactEnvelope | stitch_api/stitch_api.py:39-76 | a contact envelope is an upsert into `contacts` with the configured client id, the row's clock reading and key `id`; its only failure is a lookup failure |
| StitchApi.FlattenCustomFields | stitch_api/stitch_api.py:244-248 | `_parse_custom_fields` as a function of the envelope: it adds `custom_fields_<name>` with each custom field's `value`, or fails |
| StitchApi.CustomerEnvelope | stitch_api/stitch_api.py:84-140 | a customer envelope is an upsert into `customers` with the client id, clock reading and key `id`; its only failure is a lookup failure |
| StitchApi.NpsEnvelope | stitch_api/stitch_api.py:147-174 | an NPS envelope is an upsert into `nps` with the client id, clock reading and key `id`; its only failure is a lookup failure |
| StitchApi.TaskEnvelope | stitch_api/stitch_api.py:180-241 | a task envelope is an upsert into `tasks` with the client id, clock reading and key `id`; its only failure is a lookup failure |
| StitchApi.EnvelopeHeader | stitch_api/stitch_api.py:40-184 | every parser's envelope (headers at lines 40-43, 85-88, 148-151 and 181-184) has `action == "upsert"`, `key_names == ["id"]`, the configured client id, its row's clock reading and its own entity's table name |
| StitchApi.Batch | stitch_api/stitch_api.py:37-78 | a successful batch has exactly as many envelopes as there are rows |
| StitchApi.BatchAppend | stitch_api/stitch_api.py:78 | one loop step appends the next row's envelope to the batch of the rows before it |
| StitchApi.BatchFailsFromPrefix | stitch_api/stitch_api.py:38 | once the rows so far have failed, the whole batch fails with the same fault |
| StitchApi.BatchFailsAtRow | stitch_api/stitch_api.py:38-78 | the first row whose envelope fails makes the whole batch fail with that row's fault, and no partial list is returned |
| StitchApi.BatchRows | stitch_api/stitch_api.py:37-79 | a batch succeeds if and only if every row's envelope does; then envelope `j` is row `j`'s envelope; otherwise the batch fails with the fault of the first failing row |
| StitchApi.BatchHeaders | stitch_api/stitch_api.py:40-240 | every envelope of a successful batch of an entity (headers at lines 40-43, 85-88, 148-151 and 181-184, appended at 68-70, 136-138, 171-173 and 238-240) is an upsert into that entity's table, stamped with its own row's clock reading |
| StitchApi.ParseCustomFields | stitch_api/stitch_api.py:245-248 | the loop over `row['custom_fields']` writing `custom_fields_<name>` entries computes `FlattenCustomFields` |
| StitchApi.ParseContacts | stitch_api/stitch_api.py:36-79 | the contact loop returns `Batch` of `ContactEnvelope` over the rows |
| StitchApi.ParseCustomers | stitch_api/stitch_api.py:81-142 | the customer loop (the literal, then the flattener) returns `Batch` of `CustomerEnvelope` over the rows |
| StitchApi.ParseNps | stitch_api/stitch_api.py:144-175 | the NPS loop returns `Batch` of `NpsEnvelope` over the rows |
| StitchApi.ParseTasks | stitch_api/stitch_api.py:177-242 | the task loop returns `Batch` of `TaskEnvelope` over the rows |
| StitchApi.Transform | stitch_api/stitch_api.py:25-34 | returns no result exactly for a name no case matches, and otherwise the batch of the named entity's parser |
| StitchApi.ProjectSucceeds | stitch_api/stitch_api.py:44-237 | a `data` literal (the literals at lines 44-67, 89-135, 152-170 and 185-237) evaluates if and only if every one of its subscript chains does |
| StitchApi.ProjectKeys | stitch_api/stitch_api.py:44-237 | an evaluated literal (the literals at lines 44-67, 89-135, 152-170 and 185-237) has exactly the literal's keys |
| StitchApi.ProjectFailsOnMissing | stitch_api/stitch_api.py:44-237 | a subscript failing anywhere along one entry's path fails the whole literal (the literals at lines 44-67, 89-135, 152-170 and 185-237) |
| StitchApi.ProjectAt | stitch_api/stitch_api.py:44-237 | an entry of a literal (the literals at lines 44-67, 89-135, 152-170 and 185-237) that no later entry overrides holds the value at its own path |
| StitchApi.ProjectAll | stitch_api/stitch_api.py:44-237 | in a literal (the literals at lines 44-67, 89-135, 152-170 and 185-237) that writes every key once, every key holds the value at its own path |
| StitchApi.ContactKeysDistinct | stitch_api/stitch_api.py:44-67 | the contact literal writes each of its 22 keys once |
| StitchApi.CustomerKeysDistinct | stitch_api/stitch_api.py:89-135 | the customer literal writes each of its 45 keys once |
| StitchApi.TaskKeysDistinct | stitch_api/stitch_api.py:185-237 | the task literal writes each of its 51 keys once |
| StitchApi.TaskRoundTrip | stitch_api/stitch_api.py:185-237 | a task envelope's `data` has exactly the literal's 51 keys, and each holds the value at its own subscript chain of the row |
| StitchApi.ContactRoundTrip | stitch_api/stitch_api.py:44-76 | a contact envelope's `data` has exactly the literal's 22 keys plus `types_id` and `types_name` when `types` is truthy, and each literal key holds the value at its own subscript chain of the row |
| StitchApi.CustomerRoundTrip | stitch_api/stitch_api.py:89-140 | a customer envelope's `data` has exactly the literal's 45 keys plus one `custom_fields_<name>` key per custom field, and each literal key holds the value at its own subscript chain of the row |
| StitchApi.CustomerFieldsNotCustom | stitch_api/stitch_api.py:89-135 | no key of the customer literal starts with `custom_fields_`, so the flattener never overwrites one |
| StitchApi.ProjectFlat | stitch_api/stitch_api.py:152-170 | a literal whose entries copy same-named top-level fields succeeds if and only if the row has them all, and is then the row restricted to them |
| StitchApi.NpsFieldsFlat | stitch_api/stitch_api.py:153-169 | each of the 17 NPS entries copies the top-level field of its own name |
| StitchApi.NpsData | stitch_api/stitch_api.py:152-170 | an NPS envelope exists if and only if the row is an object holding all 17 fields, and its `data` is the row restricted to them |
| StitchApi.NpsDataWhole | tests/test_stitch_api.py:76 | an NPS row with exactly the 17 fields comes out unchanged as `data` |
| StitchApi.ContactTypes | stitch_api/stitch_api.py:74-76 | a contact without `types` fails; otherwise `types_id` and `types_name` are present if and only if `types` is truthy, and then come from its first element |
| StitchApi.ContactFieldsWithoutTypes | stitch_api/stitch_api.py:44-67 | the contact literal itself never writes `types_id` or `types_name` |
| StitchApi.ContactCustomerId | stitch_api/stitch_api.py:47 | a contact without `customer` fails; a contact envelope's `customer_id` is `row['customer']['id']` |
| StitchApi.CustomFieldsFlattened | stitch_api/stitch_api.py:245-248 | the flattener succeeds if and only if every custom field has a `value`; it then adds exactly the `custom_fields_<name>` keys, each holding `row['custom_fields'][name]['value']`, and changes nothing else in `data` or in the envelope |
| StitchApi.CustomFieldsEdges | stitch_api/stitch_api.py:246 | a row without `custom_fields` fails; an empty mapping leaves the envelope unchanged |
| StitchApi.NotCustomKey | stitch_api/stitch_api.py:247 | a key without the `custom_fields_` prefix is never a flattened key |
| StitchApi.FlattenKeeps | stitch_api/stitch_api.py:246-248 | the flattener leaves every entry whose key lacks the `custom_fields_` prefix as it was |
| StitchApi.TaskTypeId | stitch_api/stitch_api.py:197 | a task envelope's `type_id` is `row['type']['id']` |
| StitchApi.TaskOwnerRole | stitch_api/stitch_api.py:211 | a task envelope's `owner_profile_role` is `row['owner']['profile']['role']` |
| StitchApi.TaskNeedsNestedObjects | stitch_api/stitch_api.py:197-225 | a task missing `type`, `status`, `priority`, `owner` or `created_by`, or whose owner or creator has no `profile`, fails |
| StitchApi.CustomerCsRole | stitch_api/stitch_api.py:120 | a customer envelope's `cs.profile.role` is `row['cs']['profile']['role']`, whatever the custom fields are |
| StitchApi.CustomerNeedsNestedObjects | stitch_api/stitch_api.py:112-134 | a customer missing `status`, `cs` or `csm`, or whose CS or CSM has no `profile`, fails |
| StitchApi.ProjectIgnores | stitch_api/stitch_api.py:44-237 | a literal (the literals at lines 44-67, 89-135, 152-170 and 185-237) none of whose paths starts at a key does not depend on what the row holds under that key |
| StitchApi.ContactIgnoresCustomFields | stitch_api/stitch_api.py:39-76 | a contact's envelope does not depend on its `custom_fields` |
| StitchApi.NpsIgnoresCustomFields | stitch_api/stitch_api.py:147-174 | an NPS answer's envelope does not depend on its `custom_fields` |
| StitchApi.TaskIgnoresCustomFields | stitch_api/stitch_api.py:180-241 | a task's envelope does not depend on its `custom_fields` |
| StitchApi.OnlyCustomersReadCustomFields | stitch_api/stitch_api.py:140 | every parser other than the customer parser ignores `custom_fields` |
| SyncDriver.RowsOf | main.py:31 | taking `temp_data[entity]` and its `len` fails only with a lookup fault |
| SyncDriver.Step | main.py:24-35 | one iteration: a failed fetch fails, `count == 0` stops, and otherwise the rows under the entity's key are transformed, delivering the batch or failing |
| SyncDriver.Visit | main.py:24-35 | one iteration's fetch, `count` test and transform give what `Step` says |
| SyncDriver.Pages | main.py:23-39 | the inner loop from a page on: it stops at `count == 0` or after page 499 and aborts on a failed iteration or a refused push |
| SyncDriver.Run | main.py:19-39 | the outer loop from an entity on: each entity's pages in turn, ending at the first aborted one |
| SyncDriver.PagesAtStop | main.py:27-28 | a page with `count == 0` is fetched, then the entity's pages end without a transform or a push |
| SyncDriver.PagesAtFail | main.py:24 | an exception in a page's fetch or transform ends the run right after the fetch |
| SyncDriver.PagesAtDeliver | main.py:34-38 | a delivered page is pushed; a refused push ends the run, and an accepted one goes on with the next page |
| SyncDriver.VisitPage | main.py:24-39 | one iteration appends its page's fetch (and push) to the log, and either ends the entity's pages as `Pages` says or leaves the rest to the next page |
| SyncDriver.SyncPages | main.py:23-39 | the inner loop's events and status are those of `PagesFrom(svc, e, 1)` |
| SyncDriver.Sync | main.py:19-39 | the loop's log and status are those of `RunFrom(svc, 0)` |
| SyncDriver.PagesEvents | main.py:23 | an entity's events alternate fetch and push, event `k` being about page `page + k / 2`; so pages are requested as 1, 2, ... consecutively, at most 499 of them, and each push follows its own fetch |
| SyncDriver.PagesPushes | main.py:34-38 | every batch an entity's pages push is the one that page's iteration delivered |
| SyncDriver.PagesDelivered | main.py:27-38 | every fetched page before the entity's last event was transformed successfully, so it was pushed right after its fetch |
| SyncDriver.PagesAccepted | main.py:38-39 | every push before the entity's last event was accepted, so the loop went on to the next page |
| SyncDriver.PagesEnd | main.py:23-39 | an entity's pages abort exactly when the last event is a failed iteration or a refused push; they finish either at a page whose `count` is zero or after page 499 |
| SyncDriver.StopEndsPages | main.py:27-28 | a fetched page whose `count` is zero is the entity's last event, is not pushed, and the entity finishes |
| SyncDriver.PagersOf | main.py:19-21 | the run's inner loops are one per entity, in the order contacts, customers, nps, tasks |
| SyncDriver.PagesOwnEvents | main.py:23-38 | an entity's inner loop logs events about that entity only |
| SyncDriver.RunEntities | main.py:19-21 | the run from entity `i` on only touches entity `i` and later ones |
| SyncDriver.RunOrdered | main.py:19-21 | the run goes through contacts, customers, nps and tasks in that order and never goes back |
| SyncDriver.RunPushes | main.py:34-38 | every batch the run pushes is the one its page's transform delivered |
| SyncDriver.RunStatus | main.py:21-39 | the run finishes if and only if every entity's pages finish, so one failed fetch, transform or push ends the whole run |
| SyncDriver.RunEntity | main.py:21-39 | the run's events about an entity are all of its pages when every earlier entity finished, and none otherwise |
| SyncDriver.RunEntityFirst | main.py:21-23 | the run from an entity on holds all of that entity's pages |
| SyncDriver.RunRest | main.py:21 | once an entity's pages finish, the rest of the run logs nothing more about that entity |
| SyncDriver.ReachedFirst | main.py:21-24 | the run gets from one entity to a later one exactly when the first one's pages finish and the run gets from the next entity to that later one |
| SyncDriver.WiredDeliver | main.py:34-35 | with the real transformer, a delivered batch is the entity parser's batch over the page's rows: one upsert per row, in order, into the entity's table |
| SyncDriver.WiredPushes | main.py:34-38 | with the real transformer, every envelope the run pushes is an upsert keyed by `id` into the table of the entity being synced, for the configured client |

## Left out

- Which exception is raised is not modelled. A failure is `LookupFailed` (KeyError, TypeError, IndexError) or `HttpFailed`. Python walks `custom_fields` in dict insertion order, which a map does not keep. So when several custom fields lack a `value`, the model does not say which one the error names.
- The `sequence` value `int(round(datetime.now().timestamp()))` is wall-clock time with float rounding. It is a parameter instead: `stamps[j]` for row `j` in the transformer, and `Services.clock` in the driver.
- `json.dumps` is not modelled. A parser returns the list of envelopes, not its serialised text.
- `push_data_to_stitch` and `get_entity_data` are not modelled. They are HTTP calls (stitch_api/stitch_api.py:15-23, sensedata/sensedata.py:12-20) and appear only as the `fetch` and `accepts` collaborators. A fetch answered with a non-success status is a failed fetch.
- `print(response.text)`, `logger.info` and `time.sleep(3)` are output and timing only.
- Reading the token and client id from the environment is not modelled. The client id is a parameter, so an unset `STITCH_CLIENT_ID` (Python's `None`) is not represented.
- The `@abc.abstractmethod` decorator on `_parse_custom_fields` has no effect on what the method does.
- JSON floats are not modelled. `Json` has integers only, so `count == 0.0` and float field values are not represented.
- SyncDriver.Step: when the transformer gives no result (no case matched), the iteration counts as failed. Python would post `None` to Stitch, with an outcome the code does not determine. Under `Wired` this cannot happen, because the loop only passes the four known names.
- SyncDriver.Step: a non-empty dict or string under the entity's key fails before the transform. In Python, `len` succeeds and the parser then fails on the first row. Both end the run right after the fetch.
- Idempotence is not stated as a lemma. The envelope builders are functions, so the same row and clock reading always give the same envelope.
