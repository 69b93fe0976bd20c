/** What the dispatch, extract and publish steps of src/main.py guarantee. */
module HandlerProperties {
  import opened Wrappers
  import opened Environ
  import opened Effects
  import opened BqGcs

  /**
   * Loading reads the four variables back unchanged: an environment that sets
   * them to the fields of `cfg`, whatever else it holds, loads as `cfg`.
   */
  lemma LoadReadsBack(cfg: Config, extra: Env)
    ensures Load(extra["SENTRY_DSN" := cfg.sentryDsn]["BUCKET" := cfg.bucket]
                      ["ENTITY" := cfg.entity]["ENVIRONMENT" := cfg.environment]) == Ok(cfg)
  {
  }

  /** Loading depends only on the four variables it reads. */
  lemma LoadIgnoresOtherVars(env: Env, name: string, value: string)
    requires name !in {"SENTRY_DSN", "BUCKET", "ENTITY", "ENVIRONMENT"}
    ensures Load(env[name := value]) == Load(env)
  {
  }

  /** A payload with "table" takes the table path whether or not it also has "view". */
  lemma TableBeforeView(cfg: Config, env: Env, data: Payload, world: World)
    requires "table" in data
    ensures Handler(cfg, env, Decoded(data), world) == Handler(cfg, env, Decoded(data - {"view"}), world)
    ensures forall e :: e in Handler(cfg, env, Decoded(data), world).trace ==> e.ExtractTable? || e.Publish?
  {
  }

  /** A payload with neither key raises before touching any service. */
  lemma NeitherKeyRaises(cfg: Config, env: Env, data: Payload, world: World)
    requires "table" !in data && "view" !in data
    ensures Handler(cfg, env, Decoded(data), world) == Raise(InvalidPayload)
    ensures Entry(cfg, env, Decoded(data), world) == Raise(InvalidPayload)
  {
  }

  /**
   * Every success is the table path: the extract request built from the
   * payload comes first, and the publish of the fixed message follows exactly
   * when `OUTPUT_TOPIC` is non-empty.
   */
  lemma SuccessShape(cfg: Config, env: Env, data: Payload, world: World)
    requires Handler(cfg, env, Decoded(data), world).result.Ok?
    ensures "table" in data && "project" in data && "dataset" in data
    ensures "OUTPUT_TOPIC" in env
    ensures var t := Handler(cfg, env, Decoded(data), world).trace;
            if env["OUTPUT_TOPIC"] == "" then
              t == [TableRequest(cfg, data)]
            else
              "ENTITY" in env && t == [TableRequest(cfg, data), Publish(env["OUTPUT_TOPIC"], Message(env["ENTITY"]))]
  {
  }

  /** Without "table" the handler never returns "ok" and never publishes. */
  lemma ViewPathFails(cfg: Config, env: Env, data: Payload, world: World)
    requires "table" !in data
    ensures Handler(cfg, env, Decoded(data), world).result.Err?
    ensures forall e :: e in Handler(cfg, env, Decoded(data), world).trace ==> e.QueryView?
  {
  }

  /**
   * For a table payload whose required keys and variables are present, the
   * handler returns "ok" exactly when the extract job succeeds and, if a
   * topic is configured, the publish succeeds.
   */
  lemma TableSuccessIff(cfg: Config, env: Env, data: Payload, world: World)
    requires "table" in data && "project" in data && "dataset" in data
    requires "OUTPUT_TOPIC" in env && "ENTITY" in env
    ensures Handler(cfg, env, Decoded(data), world).result.Ok?
            <==> TableRequest(cfg, data) !in world.failing
                 && (env["OUTPUT_TOPIC"] == ""
                     || Publish(env["OUTPUT_TOPIC"], Message(env["ENTITY"])) !in world.failing)
  {
  }

  /** A failing extract job is re-raised unchanged and nothing is published. */
  lemma ExtractFailurePropagates(cfg: Config, env: Env, data: Payload, world: World)
    requires "table" in data && "project" in data && "dataset" in data
    requires TableRequest(cfg, data) in world.failing
    ensures Entry(cfg, env, Decoded(data), world) == Run(Err(Upstream(TableRequest(cfg, data))), [TableRequest(cfg, data)])
  {
  }

  /** `pub` never publishes anything but the placeholder message for `ENTITY`. */
  lemma PublishedMessageFixed(cfg: Config, env: Env, input: Input, world: World)
    ensures forall e :: e in Handler(cfg, env, input, world).trace && e.Publish? ==>
              "OUTPUT_TOPIC" in env && "ENTITY" in env && e == Publish(env["OUTPUT_TOPIC"], Message(env["ENTITY"]))
  {
  }

  /** What `pub` does does not depend on the payload it is handed. */
  lemma PubIgnoresData(env: Env, d1: Payload, d2: Payload, world: World)
    ensures Pub(env, d1, world) == Pub(env, d2, world)
  {
  }

  /** Every run of the handler is honest: no fault raised by a service call is swallowed. */
  lemma HandlerHonest(cfg: Config, env: Env, input: Input, world: World)
    ensures Honest(Handler(cfg, env, input, world), world)
    ensures Honest(Entry(cfg, env, input, world), world)
  {
  }

  /** The destination URI determines the dataset and table it was built from. */
  lemma DestinationRoundTrip(bucket: string, dataset: string, table: string)
    requires '/' !in dataset
    ensures ParseDestination(bucket, Uri(bucket, dataset, table)) == Some((dataset, table))
  {
    var u := Uri(bucket, dataset, table);
    var prefix := BucketPrefix(bucket);
    var path := u[|prefix|..|u| - 4];
    assert path == dataset + "/" + table;
    var k := FirstIndex(path, '/');
    assert path[|dataset|] == '/';
    assert forall i :: 0 <= i < |dataset| ==> path[i] == dataset[i];
    assert k == |dataset|;
    assert path[..k] == dataset;
    assert path[k + 1..] == table;
  }

  /**
   * The payload's location is what the extract job receives: setting it to
   * `loc` sends the job to `loc`, and removing it sends the job to "EU".
   */
  lemma LocationReachesJob(cfg: Config, env: Env, data: Payload, loc: string, world: World)
    requires "table" in data && "project" in data && "dataset" in data
    ensures var t := Handler(cfg, env, Decoded(data["location" := loc]), world).trace;
            |t| > 0 && t[0] == ExtractTable(
                                 TableRef(data["project"], data["dataset"], data["table"]),
                                 Uri(cfg.bucket, data["dataset"], data["table"]),
                                 loc)
            && t[0] == TableRequest(cfg, data["location" := loc])
    ensures var t := Handler(cfg, env, Decoded(data - {"location"}), world).trace;
            |t| > 0 && t[0].ExtractTable? && t[0].location == DefaultLocation
  {
  }

  /** Project p, dataset d, table t, bucket B, no location. */
  lemma ExampleTablePayload(env: Env, world: World)
    requires "OUTPUT_TOPIC" in env && env["OUTPUT_TOPIC"] == ""
    requires world.failing == {}
    ensures var data := map["project" := "p", "dataset" := "d", "table" := "t"];
            Handler(Config("dsn", "B", "e", "prod"), env, Decoded(data), world)
              == Run(Ok("ok"), [ExtractTable(TableRef("p", "d", "t"), "gs://B/d/t.csv", "EU")])
  {
    assert Uri("B", "d", "t") == "gs://B/d/t.csv";
  }
}
