/**
 * The event-triggered function of src/main.py: a decoded Pub/Sub payload is
 * routed to a BigQuery table extract (or a view query), after which a
 * notification is published; every fault is re-raised to the platform.
 */
module BqGcs {
  import opened Wrappers
  import opened Environ
  import opened Effects

  /** The JSON object carried by the event, after base64 and JSON decoding. */
  type Payload = map<string, string>

  /** What decoding `event["data"]` produced. */
  datatype Input = Decoded(data: Payload) | Malformed

  /** The module-level constants read from the environment at import time. */
  datatype Config = Config(sentryDsn: string, bucket: string, entity: string, environment: string)

  /** Location used when the payload names none. */
  const DefaultLocation: string := "EU"

  /**
   * Importing the module: `SENTRY_DSN`, `BUCKET`, `ENTITY` and `ENVIRONMENT`
   * are read in that order and the first missing one raises.
   */
  function Load(env: Env): (r: Result<Config, Fault>)
    ensures r.Ok? <==> "SENTRY_DSN" in env && "BUCKET" in env && "ENTITY" in env && "ENVIRONMENT" in env
    ensures r.Ok? ==> r.value == Config(env["SENTRY_DSN"], env["BUCKET"], env["ENTITY"], env["ENVIRONMENT"])
    ensures r.Err? ==> r.error.MissingEnvVar? && r.error.name !in env
    ensures "SENTRY_DSN" !in env ==> r == Err(MissingEnvVar("SENTRY_DSN"))
    ensures "SENTRY_DSN" in env && "BUCKET" !in env ==> r == Err(MissingEnvVar("BUCKET"))
    ensures "SENTRY_DSN" in env && "BUCKET" in env && "ENTITY" !in env ==> r == Err(MissingEnvVar("ENTITY"))
    ensures ("SENTRY_DSN" in env && "BUCKET" in env && "ENTITY" in env && "ENVIRONMENT" !in env)
              ==> r == Err(MissingEnvVar("ENVIRONMENT"))
  {
    if "SENTRY_DSN" !in env then Err(MissingEnvVar("SENTRY_DSN"))
    else if "BUCKET" !in env then Err(MissingEnvVar("BUCKET"))
    else if "ENTITY" !in env then Err(MissingEnvVar("ENTITY"))
    else if "ENVIRONMENT" !in env then Err(MissingEnvVar("ENVIRONMENT"))
    else Ok(Config(env["SENTRY_DSN"], env["BUCKET"], env["ENTITY"], env["ENVIRONMENT"]))
  }

  /** `get_dataset_location`: the payload's location, "EU" when it has none. */
  function DatasetLocation(data: Payload): (loc: string)
    ensures "location" !in data ==> loc == DefaultLocation
    ensures "location" in data ==> loc == data["location"]
  {
    if "location" in data then data["location"] else DefaultLocation
  }

  /** The part of every destination URI before the dataset. */
  function BucketPrefix(bucket: string): string {
    "gs://" + bucket + "/"
  }

  /** The destination URI of a table: `gs://{bucket}/{dataset}/{table}.csv`. */
  function Uri(bucket: string, dataset: string, table: string): (u: string)
    ensures BucketPrefix(bucket) <= u
    ensures |u| == |BucketPrefix(bucket)| + |dataset| + 1 + |table| + 4
    ensures u[|u| - 4..] == ".csv"
    ensures u[|BucketPrefix(bucket)|..|u| - 4] == dataset + "/" + table
  {
    var u := BucketPrefix(bucket) + dataset + "/" + table + ".csv";
    assert u == BucketPrefix(bucket) + (dataset + "/" + table) + ".csv";
    u
  }

  /** `get_destination_uri`: reads `dataset`, then `table`, from the payload. */
  function DestinationUri(bucket: string, data: Payload): (r: Result<string, Fault>)
    ensures r.Ok? <==> "dataset" in data && "table" in data
    ensures r.Ok? ==> r.value == Uri(bucket, data["dataset"], data["table"])
    ensures "dataset" !in data ==> r == Err(MissingKey("dataset"))
    ensures "dataset" in data && "table" !in data ==> r == Err(MissingKey("table"))
  {
    if "dataset" !in data then Err(MissingKey("dataset"))
    else if "table" !in data then Err(MissingKey("table"))
    else Ok(Uri(bucket, data["dataset"], data["table"]))
  }

  /** Index of the first `c` in `s`, or `|s|` when there is none. */
  function FirstIndex(s: string, c: char): (k: nat)
    ensures k <= |s|
    ensures k < |s| ==> s[k] == c
    ensures forall i :: 0 <= i < k ==> s[i] != c
  {
    if |s| == 0 then 0
    else if s[0] == c then 0
    else 1 + FirstIndex(s[1..], c)
  }

  /**
   * Reads a destination URI back into its dataset and table: the inverse of
   * `Uri` for datasets without '/'.
   */
  function ParseDestination(bucket: string, uri: string): (r: Option<(string, string)>)
    ensures r.Some? ==> uri == Uri(bucket, r.value.0, r.value.1) && '/' !in r.value.0
  {
    var prefix := BucketPrefix(bucket);
    if |uri| < |prefix| + 4 || !(prefix <= uri) || uri[|uri| - 4..] != ".csv" then None
    else
      var path := uri[|prefix|..|uri| - 4];
      var k := FirstIndex(path, '/');
      if k == |path| then None
      else
        var dataset, table := path[..k], path[k + 1..];
        assert path == dataset + "/" + table;
        assert uri == prefix + path + ".csv";
        Some((dataset, table))
  }

  /**
   * The extract request `bq_extract_table` submits for `data`: the table
   * named by the payload, its destination URI, and the dataset location.
   */
  function TableRequest(cfg: Config, data: Payload): Effect
    requires "project" in data && "dataset" in data && "table" in data
  {
    ExtractTable(
      TableRef(data["project"], data["dataset"], data["table"]),
      Uri(cfg.bucket, data["dataset"], data["table"]),
      DatasetLocation(data))
  }

  /** `bq_extract_table`: one extract job, waited for. */
  function BqExtractTable(cfg: Config, data: Payload, world: World): (r: Run<()>)
    ensures r.trace != [] <==> "project" in data && "dataset" in data && "table" in data
    ensures r.trace != [] ==> r.trace == [TableRequest(cfg, data)]
    ensures r.trace != [] ==> (r.result.Ok? <==> r.trace[0] !in world.failing)
    ensures r.result.Err? && r.trace != [] ==> r.result.error == Upstream(r.trace[0])
    ensures "project" !in data ==> r == Raise(MissingKey("project"))
    ensures "project" in data && "dataset" !in data ==> r == Raise(MissingKey("dataset"))
    ensures "project" in data && "dataset" in data && "table" !in data ==> r == Raise(MissingKey("table"))
  {
    if "project" !in data then Raise(MissingKey("project"))
    else if "dataset" !in data then Raise(MissingKey("dataset"))
    else if "table" !in data then Raise(MissingKey("table"))
    else Perform(TableRequest(cfg, data), world)
  }

  /** `write_gcs_file`: one upload of the query results to `bucket`. */
  function WriteGcsFile(bucket: string, name: string, world: World): (r: Run<()>)
    ensures r.trace == [UploadBlob(bucket, name)]
    ensures r.result.Ok? <==> UploadBlob(bucket, name) !in world.failing
  {
    Perform(UploadBlob(bucket, name), world)
  }

  /**
   * `bq_extract_view`: query the view, then upload the rows under the name
   * `get_destination_uri` yields, which reads the payload's `table` key.
   */
  function BqExtractView(cfg: Config, data: Payload, world: World): (r: Run<()>)
    ensures r.trace != [] <==> "project" in data && "dataset" in data && "view" in data
    ensures r.trace != [] ==> r.trace[0] == QueryView(
                                TableRef(data["project"], data["dataset"], data["view"]),
                                DatasetLocation(data))
    ensures r.result.Ok? ==> "table" in data && |r.trace| == 2
                             && r.trace[1] == UploadBlob(cfg.bucket, Uri(cfg.bucket, data["dataset"], data["table"]))
    ensures "project" !in data ==> r == Raise(MissingKey("project"))
    ensures "project" in data && "dataset" !in data ==> r == Raise(MissingKey("dataset"))
    ensures "project" in data && "dataset" in data && "view" !in data ==> r == Raise(MissingKey("view"))
    ensures r.trace != [] && r.trace[0] in world.failing ==> r == Run(Err(Upstream(r.trace[0])), [r.trace[0]])
    ensures (r.trace != [] && r.trace[0] !in world.failing && "table" !in data)
              ==> r == Run(Err(MissingKey("table")), [r.trace[0]])
    ensures r.result.Ok? <==>
              && r.trace != [] && r.trace[0] !in world.failing && "table" in data
              && UploadBlob(cfg.bucket, Uri(cfg.bucket, data["dataset"], data["table"])) !in world.failing
  {
    if "project" !in data then Raise(MissingKey("project"))
    else if "dataset" !in data then Raise(MissingKey("dataset"))
    else if "view" !in data then Raise(MissingKey("view"))
    else
      var view := TableRef(data["project"], data["dataset"], data["view"]);
      var query := Perform(QueryView(view, DatasetLocation(data)), world);
      var upload := match DestinationUri(cfg.bucket, data)
        case Err(f) => Raise(f)
        case Ok(uri) => WriteGcsFile(cfg.bucket, uri, world);
      Then(query, upload)
  }

  /** The placeholder notification `pub` sends, whatever it was given. */
  function Message(entity: string): (m: Notification)
    ensures m.entity == entity && m.event == "bq.table.updated"
  {
    Notification(
      entity, "generic", "test", "bq.table.updated", "Some helpful descriptive text",
      TableRef("bigquery-public-data", "samples", "shakespeare"))
  }

  /**
   * `pub`: reads `OUTPUT_TOPIC` (an unset variable raises), returns "ok"
   * without publishing when it is empty, otherwise publishes `Message` built
   * from `ENTITY` and returns nothing. The `data` argument is never read.
   * Whether the publish is later acknowledged (`world.rejected`) does not
   * matter here: the failure is raised inside the done-callback, and when
   * that callback runs on the publisher's background thread the raise does
   * not propagate to `pub`.
   */
  function Pub(env: Env, data: Payload, world: World): (r: Run<Option<string>>)
    ensures "OUTPUT_TOPIC" !in env ==> r == Raise(MissingEnvVar("OUTPUT_TOPIC"))
    ensures r.result == Ok(Some("ok")) <==> "OUTPUT_TOPIC" in env && env["OUTPUT_TOPIC"] == ""
    ensures r.trace != [] <==> "OUTPUT_TOPIC" in env && env["OUTPUT_TOPIC"] != "" && "ENTITY" in env
    ensures r.trace != [] ==> r.trace == [Publish(env["OUTPUT_TOPIC"], Message(env["ENTITY"]))]
    ensures r.trace != [] ==> (r.result.Ok? <==> r.trace[0] !in world.failing)
    ensures "OUTPUT_TOPIC" in env && env["OUTPUT_TOPIC"] != "" && "ENTITY" !in env ==> r == Raise(MissingEnvVar("ENTITY"))
  {
    if "OUTPUT_TOPIC" !in env then Raise(MissingEnvVar("OUTPUT_TOPIC"))
    else if env["OUTPUT_TOPIC"] == "" then Return(Some("ok"))
    else if "ENTITY" !in env then Raise(MissingEnvVar("ENTITY"))
    else Then(Perform(Publish(env["OUTPUT_TOPIC"], Message(env["ENTITY"])), world), Return(None))
  }

  /** One successful path of `handler`: extract, then publish, then "ok". */
  function ExtractThenPublish(extract: Run<()>, publish: Run<Option<string>>): (r: Run<string>)
    ensures r.result.Ok? <==> extract.result.Ok? && publish.result.Ok?
    ensures r.result.Ok? ==> r.result.value == "ok" && r.trace == extract.trace + publish.trace
    ensures r.result.Err? ==> r.result.error == (if extract.result.Err? then extract.result.error else publish.result.error)
  {
    Then(extract, Then(publish, Return("ok")))
  }

  /**
   * `handler`: a payload with "table" takes the table path, otherwise one
   * with "view" takes the view path, otherwise it is invalid.
   */
  function Handler(cfg: Config, env: Env, input: Input, world: World): (r: Run<string>)
    ensures input.Malformed? ==> r == Raise(Undecodable)
    ensures r.result.Ok? ==> r.result.value == "ok"
  {
    match input
    case Malformed => Raise(Undecodable)
    case Decoded(data) =>
      if "table" in data then
        ExtractThenPublish(BqExtractTable(cfg, data, world), Pub(env, data, world))
      else if "view" in data then
        ExtractThenPublish(BqExtractView(cfg, data, world), Pub(env, data, world))
      else
        Raise(InvalidPayload)
  }

  /**
   * `main`: runs `handler`, discards its "ok", and re-raises whatever it
   * raised, after the same effects.
   */
  function Entry(cfg: Config, env: Env, input: Input, world: World): (r: Run<()>)
    ensures r.trace == Handler(cfg, env, input, world).trace
    ensures r.result.Err? <==> Handler(cfg, env, input, world).result.Err?
    ensures r.result.Err? ==> r.result.error == Handler(cfg, env, input, world).result.error
  {
    var h := Handler(cfg, env, input, world);
    match h.result
    case Ok(_) => Run(Ok(()), h.trace)
    case Err(f) => Run(Err(f), h.trace)
  }
}
