# bq-gcs: a Dafny model of the extract-and-notify function

The program is a Cloud Function triggered by Pub/Sub. The message carries a
JSON payload. When the payload has a `table` key, the function runs a BigQuery
extract job that writes the table as CSV to `gs://{BUCKET}/{dataset}/{table}.csv`,
in the payload's `location` (default `EU`). It then publishes a notification
to `OUTPUT_TOPIC`, unless that variable is empty, and returns `'ok'`. A
payload with `view` instead of `table` runs a query over the view and tries to
upload the rows. A payload with neither key raises. `main` re-raises every
fault so that the platform can retry.

A second file chooses how the process authenticates. A user token comes first,
then a service-account key file, then ambient default credentials. The first
two are wrapped in impersonation of `terraform@{PROJECT}.iam.gserviceaccount.com`
for 300 seconds. Every choice uses the `cloud-platform` scope.

The model is written as pure functions:

- `wrappers.dfy` defines `Option`, `Result` and the environment type `Env`.
- `effects.dfy` represents each service call as an `Effect` record. A `World`
  says which calls raise. A `Run` is a result plus the ordered trace of
  attempted effects. `Then` sequences runs the way Python propagates an
  exception. `Honest` is the invariant that no fault raised by a service
  call is swallowed. Here a publish "succeeds" when `client.publish` does not
  raise. A publish the service rejects later, through the returned future,
  is a separate case (see Findings).
- `bq_gcs.dfy` models `src/main.py`.
- `handler_properties.dfy` holds the lemmas about `src/main.py`.
- `view_export.dfy` holds the corrected view path (see Findings).
- `publish_ack.dfy` holds the acknowledged publish (see Findings).
- `credentials.dfy` models `src/credentials.py`.

Some behaviour of the code worth noting:

- A `view` payload runs a query over the view, then raises `KeyError('table')`.
- An unset `OUTPUT_TOPIC` raises `KeyError`. An empty `OUTPUT_TOPIC` turns publishing off.
- The published message is a fixed placeholder: event `bq.table.updated`,
  environment `test`, and the `bigquery-public-data.samples.shakespeare` table.
  It is built from `ENTITY` alone, never from the extract result.
- The payload keys `project`, `dataset`, `table`, `view` and `location` are
  read at the top level of the JSON object.

## Model

| member | source | states |
|---|---|---|
| BqGcs.Load | src/main.py:24-30 | import succeeds exactly when SENTRY_DSN, BUCKET, ENTITY and ENVIRONMENT are all set, and then holds their values; otherwise it fails naming the first unset variable in the order SENTRY_DSN, BUCKET, ENTITY, ENVIRONMENT |
| HandlerProperties.LoadReadsBack | src/main.py:24-30 | an environment that sets the four variables to a configuration's fields loads as exactly that configuration, whatever else it holds |
| HandlerProperties.LoadIgnoresOtherVars | src/main.py:24-30 | setting any variable other than the four read leaves the load's outcome unchanged |
| BqGcs.DatasetLocation | src/main.py:49-56 | the location is "EU" when the payload has no "location" key, and exactly the payload's value otherwise |
| BqGcs.Uri | src/main.py:59-61 | the destination starts with "gs://" + bucket + "/", ends with ".csv", and has dataset + "/" + table between the two |
| BqGcs.DestinationUri | src/main.py:59-61 | succeeds exactly when both "dataset" and "table" are in the payload; a missing "dataset" is reported before a missing "table" |
| BqGcs.ParseDestination | src/main.py:59-61 | any URI it accepts is the destination of the dataset and table it returns, and that dataset has no '/' |
| HandlerProperties.DestinationRoundTrip | src/main.py:59-61 | for a dataset without '/', the destination URI gives back exactly its dataset and table, so distinct tables get distinct objects |
| BqGcs.BqExtractTable | src/main.py:82-90 | a job is attempted exactly when project, dataset and table are all present, and otherwise the first missing key of project, dataset, table is raised; the job is one extract of project.dataset.table to the destination URI, in the payload's location; it succeeds exactly when that job does not fail, and a failed job is raised as that job's fault |
| BqGcs.WriteGcsFile | src/main.py:64-79 | one upload into the bucket under the given name; it succeeds exactly when that upload does not fail |
| BqGcs.BqExtractView | src/main.py:95-106 | the first missing key of project, dataset, view is raised before any effect; otherwise the view query in the payload's location comes first, a failing query is re-raised as its fault, and a successful one is followed by KeyError('table') when "table" is absent; it succeeds exactly when the query succeeds, "table" is present and the upload under that table's URI succeeds, after exactly those two effects |
| BqGcs.Message | src/main.py:143-154 | the notification carries the given entity and the fixed event name "bq.table.updated" |
| BqGcs.Pub | src/main.py:131-166 | an unset OUTPUT_TOPIC raises; an empty one returns "ok" without publishing; a non-empty one with ENTITY unset raises KeyError('ENTITY') without publishing; otherwise it publishes exactly one fixed message for ENTITY to that topic, and succeeds exactly when that submission does not raise |
| BqGcs.ExtractThenPublish | src/main.py:174-177 | a path succeeds exactly when its extract and its publish both succeed; it then returns "ok" after the extract's effects followed by the publish's effects |
| BqGcs.Handler | src/main.py:169-184 | an undecodable event raises before any effect; a success always returns "ok" |
| BqGcs.Entry | src/main.py:187-207 | main fails exactly when handler fails, with the same fault and after the same effects |
| HandlerProperties.TableBeforeView | src/main.py:174-182 | with "table" present, the result is the same whether or not "view" is present, and only extract and publish effects occur |
| HandlerProperties.NeitherKeyRaises | src/main.py:174-184 | a payload with neither "table" nor "view" raises InvalidPayload with an empty trace, in handler and in main |
| HandlerProperties.SuccessShape | src/main.py:174-177 | every success comes from a table payload: first the extract request built from the payload, then a publish of the fixed message exactly when OUTPUT_TOPIC is non-empty |
| HandlerProperties.ViewPathFails | src/main.py:179-182 | without "table", the handler always raises and attempts nothing but the view query |
| HandlerProperties.TableSuccessIff | src/main.py:174-177 | for a well-formed table payload, "ok" is returned exactly when the extract job succeeds and, if a topic is set, `client.publish` does not raise |
| HandlerProperties.ExtractFailurePropagates | src/main.py:197-207 | a failing extract job is re-raised unchanged by main, and nothing is published |
| HandlerProperties.PublishedMessageFixed | src/main.py:143-159 | every publish in any run goes to OUTPUT_TOPIC and carries the placeholder message for ENTITY |
| HandlerProperties.PubIgnoresData | src/main.py:131-160 | the outcome and effects of pub do not depend on its data argument |
| HandlerProperties.HandlerHonest | src/main.py:197-207 | in every run of handler and of main, a raised service fault is the last effect attempted and that call really raised; in every other outcome, no attempted call raised (a rejection reported only to the publish callback is not a raised fault) |
| HandlerProperties.LocationReachesJob | src/main.py:49-56 | the extract job runs in exactly the location the payload names, and in "EU" when the payload names none; it is the request `bq_extract_table` builds for that payload |
| HandlerProperties.ExampleTablePayload | src/main.py:82-89 | project p, dataset d, table t and bucket B give one extract to "gs://B/d/t.csv" in "EU", then "ok" when no topic is set |
| Effects.ThenHonest | src/main.py:174-177 | running one step after another keeps the no-swallowed-fault invariant |
| ViewExport.AsWrittenViewFails | src/main.py:95-106 | as written, every well-formed view payload whose query succeeds makes main raise KeyError('table') right after that query, with nothing published |
| ViewExport.BqExtractViewCorrected | src/main.py:95-106 | corrected view path: succeeds exactly when the keys are present and the query and the upload of dataset/view.csv both succeed, and then performs query then upload |
| ViewExport.ObjectNameMatchesUri | src/main.py:59-61 | the corrected object name sits in the bucket exactly at the view's destination URI |
| ViewExport.HandlerCorrected | src/main.py:169-184 | the corrected handler raises on undecodable events and returns "ok" on every success |
| ViewExport.CorrectedKeepsTablePath | src/main.py:174-177 | the correction does not change anything for payloads with "table" or without "view" |
| ViewExport.CorrectedViewSucceeds | src/main.py:179-182 | with the correction, a view payload against working services returns "ok": query, then upload to the view's destination, then the publish when a topic is set |
| PublishAck.PubAcknowledged | src/main.py:109-166 | corrected pub: the same effects as pub, and it succeeds exactly when pub does and its publish, if any, was acknowledged; a rejected publish raises |
| PublishAck.HandlerAcknowledged | src/main.py:169-184 | handler with the corrected pub raises on undecodable events and returns "ok" on every success |
| PublishAck.AsWrittenRejectionSwallowed | src/main.py:109-166 | as written, a successful extract followed by a publish that is submitted but then rejected still ends in "ok" from handler and main |
| PublishAck.AcknowledgedSuccessDelivered | src/main.py:112-126 | with the correction, every "ok" means no call raised and every publish was acknowledged |
| PublishAck.AcknowledgedTableIff | src/main.py:174-177 | with the correction, a well-formed table payload returns "ok" exactly when the extract succeeds and, if a topic is set, the publish is submitted and acknowledged |
| PublishAck.AcknowledgedAgreesWithoutRejections | src/main.py:169-184 | when no publish is rejected after submission, the correction behaves exactly as the program |
| Credentials.Select | src/credentials.py:28-33 | User exactly when the token variable is set, whatever else is set; SA exactly when only the key-file variable is set; None (Adc) exactly when neither is set |
| Credentials.SelectReadsOnlyPresence | src/credentials.py:28-33 | the choice depends only on which of the two variables are present |
| Credentials.Get | src/credentials.py:35-59 | Adc always gives default credentials with the target scopes and no impersonation; User and SA give impersonation of PROJECT's terraform account for 300 s with the target scopes, sourced from the user token or from the key file (itself scoped to the target scopes); it fails exactly when a variable it reads is unset, the key-file path being read before PROJECT |
| Credentials.Impersonate | src/credentials.py:53-59 | impersonation keeps the given source and targets the principal of PROJECT; it fails exactly when PROJECT is unset |
| Credentials.Principal | src/credentials.py:55 | the principal is "terraform@" + project + ".iam.gserviceaccount.com" |
| Credentials.ProjectOf | src/credentials.py:55 | any principal it reads is the principal of the project it returns |
| Credentials.PrincipalRoundTrip | src/credentials.py:55 | the project is recovered exactly from its principal |
| Credentials.PrincipalInjective | src/credentials.py:55 | distinct projects impersonate distinct principals |
| Credentials.GetReadsOnlyKeyFileAndProject | src/credentials.py:40-55 | get reads only the key-file path and PROJECT; it never re-checks the token variable that chose the strategy |
| Credentials.ResolvedPlan | src/credentials.py:28-59 | end to end: default credentials when neither variable is set; otherwise impersonation exactly when PROJECT is set, sourced from the user token whenever a token is set and from the key file otherwise |

## Left out

- The BigQuery, Cloud Storage, Pub/Sub and Sentry client calls are foreign SDK calls. Each call that matters is an `Effect` record, and whether it raises is the `World` parameter. Constructing the clients is assumed not to fail.
- Base64 and JSON decoding of `event["data"]` are library calls. The handler's input is the decoded object, or `Malformed` when decoding fails. A missing `data` field is folded into `Malformed`.
- Decoded JSON that is not an object, and payload values that are not strings, are not modelled. `Payload` maps strings to strings.
- Serialising the notification with `json.dumps` and encoding it as UTF-8 are not modelled. The effect carries the message as a record.
- The `sleep` polling loop, the thread that runs the done-callback, and the message counter are concurrency and timing. A publish's eventual outcome is the `rejected` part of `World`. A publish that raises on submission is an `Upstream` fault.
- A done-callback that runs inline, on the calling thread, because the future had already resolved when it was attached is not modelled. The rejection is taken to be reported on the publisher's background thread.
- Logging, log-level selection from `ENVIRONMENT`, and the `sleep` calls in `main` are left out. They have no effect on results.
- The SQL text of the view query is left out. The effect records only the view and the location.
- The rows returned by the view query, which are the contents of the upload, are left out.
- Token acquisition, key-file loading and default-credential discovery in `google.auth` are unseen library code. A plan records what would be requested. Failures of key-file loading, impersonation or default-credential discovery are not modelled.
- The commented-out configuration and the dead-letter todo at the end of `src/main.py` are not live code.

## Findings

| source | as written | input that shows it | evidently intended | confidence | as-written member | corrected member |
|---|---|---|---|---|---|---|
| src/main.py:95-106 | `bq_extract_view` names the upload with `get_destination_uri(data)`, which reads `data["table"]`; `handler` only calls it when "table" is absent, so it always raises `KeyError('table')` after the query has run, and nothing is published | payload {"project": "p", "dataset": "d", "view": "v"} with working services | store the view's rows as the object `{dataset}/{view}.csv` in the bucket (the view's destination URI), then publish and return "ok"; this also changes the blob name, which as written would be the whole `gs://{BUCKET}/...` string used as a name inside the bucket (main.py:76, 106) | high; not executed | ViewExport.AsWrittenViewFails | ViewExport.CorrectedViewSucceeds |
| src/main.py:109-166 | the done-callback re-raises a failed publish, but that raise happens inside the future's callback; when the callback runs on the publisher's background thread it does not reach `pub`, `handler` or `main` | a table payload whose extract succeeds and whose publish is submitted and then rejected | the rejection makes the invocation fail, so the platform retries | medium; not executed | PublishAck.AsWrittenRejectionSwallowed | PublishAck.AcknowledgedTableIff |
