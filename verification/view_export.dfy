/**
 * The view path of src/main.py as evidently intended. As written,
 * `bq_extract_view` names the upload with `get_destination_uri`, which reads
 * the payload's "table" key; `handler` only takes the view path when that key
 * is absent, so every view payload raises after its query has run. Here the
 * rows are stored under `{dataset}/{view}.csv` in the bucket instead, the
 * object whose URI is the view's destination URI.
 */
module ViewExport {
  import opened Wrappers
  import opened Environ
  import opened Effects
  import opened BqGcs

  /** The object name inside the bucket for a view's rows. */
  function ObjectName(dataset: string, view: string): (n: string)
    ensures |n| == |dataset| + 1 + |view| + 4
    ensures dataset + "/" <= n
    ensures n[|n| - 4..] == ".csv"
  {
    dataset + "/" + view + ".csv"
  }

  /** The object lands exactly where a table of the same name would be extracted to. */
  lemma ObjectNameMatchesUri(bucket: string, dataset: string, view: string)
    ensures BucketPrefix(bucket) + ObjectName(dataset, view) == Uri(bucket, dataset, view)
  {
  }

  /** `bq_extract_view` with the upload named from the view rather than a "table" key. */
  function BqExtractViewCorrected(cfg: Config, data: Payload, world: World): (r: Run<()>)
    ensures r.result.Ok? <==>
              && "project" in data && "dataset" in data && "view" in data
              && QueryView(TableRef(data["project"], data["dataset"], data["view"]), DatasetLocation(data)) !in world.failing
              && UploadBlob(cfg.bucket, ObjectName(data["dataset"], data["view"])) !in world.failing
    ensures r.result.Ok? ==> r.trace == [
              QueryView(TableRef(data["project"], data["dataset"], data["view"]), DatasetLocation(data)),
              UploadBlob(cfg.bucket, ObjectName(data["dataset"], data["view"]))]
  {
    if "project" !in data then Raise(MissingKey("project"))
    else if "dataset" !in data then Raise(MissingKey("dataset"))
    else if "view" !in data then Raise(MissingKey("view"))
    else
      var view := TableRef(data["project"], data["dataset"], data["view"]);
      Then(Perform(QueryView(view, DatasetLocation(data)), world),
           WriteGcsFile(cfg.bucket, ObjectName(data["dataset"], data["view"]), world))
  }

  /** `handler` with the corrected view path; the table path is unchanged. */
  function HandlerCorrected(cfg: Config, env: Env, input: Input, world: World): (r: Run<string>)
    ensures input.Malformed? ==> r == Raise(Undecodable)
    ensures r.result.Ok? ==> r.result.value == "ok"
  {
    match input
    case Malformed => Raise(Undecodable)
    case Decoded(data) =>
      if "table" in data then
        ExtractThenPublish(BqExtractTable(cfg, data, world), Pub(env, data, world))
      else if "view" in data then
        ExtractThenPublish(BqExtractViewCorrected(cfg, data, world), Pub(env, data, world))
      else
        Raise(InvalidPayload)
  }

  /**
   * As written, every well-formed view payload whose query succeeds raises
   * KeyError('table') right after that query, and publishes nothing.
   */
  lemma AsWrittenViewFails(cfg: Config, env: Env, data: Payload, world: World)
    requires "table" !in data && "view" in data && "project" in data && "dataset" in data
    requires QueryView(TableRef(data["project"], data["dataset"], data["view"]), DatasetLocation(data)) !in world.failing
    ensures Entry(cfg, env, Decoded(data), world)
              == Run(Err(MissingKey("table")), [QueryView(TableRef(data["project"], data["dataset"], data["view"]), DatasetLocation(data))])
  {
  }

  /** The corrected handler agrees with the program on every payload with "table". */
  lemma CorrectedKeepsTablePath(cfg: Config, env: Env, data: Payload, world: World)
    requires "table" in data || "view" !in data
    ensures HandlerCorrected(cfg, env, Decoded(data), world) == Handler(cfg, env, Decoded(data), world)
  {
  }

  /**
   * With the correction, a view payload whose query, upload and publish all
   * succeed returns "ok" after querying, uploading to the view's destination
   * and then publishing, in that order.
   */
  lemma CorrectedViewSucceeds(cfg: Config, env: Env, data: Payload, world: World)
    requires "table" !in data && "view" in data && "project" in data && "dataset" in data
    requires "OUTPUT_TOPIC" in env && "ENTITY" in env
    requires world.failing == {}
    ensures var r := HandlerCorrected(cfg, env, Decoded(data), world);
            && r.result == Ok("ok")
            && |r.trace| >= 2
            && r.trace[0] == QueryView(TableRef(data["project"], data["dataset"], data["view"]), DatasetLocation(data))
            && r.trace[1].UploadBlob?
            && BucketPrefix(r.trace[1].bucket) + r.trace[1].name == Uri(cfg.bucket, data["dataset"], data["view"])
            && (env["OUTPUT_TOPIC"] == "" <==> |r.trace| == 2)
  {
  }
}
