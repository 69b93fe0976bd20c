/**
 * Publish acknowledgement in src/main.py. `pub` hands the publish to
 * `client.publish`, which returns a future; a publish the service later
 * rejects resolves that future with an error, and the only `raise` for it is
 * inside the done-callback. When the callback runs on the publisher's
 * background thread, that raise does not reach `pub`, `handler` or `main`,
 * so the invocation still returns "ok". Here the rejection is raised
 * from `pub` instead, as the callback's `raise` evidently intends.
 */
module PublishAck {
  import opened Wrappers
  import opened Environ
  import opened Effects
  import opened BqGcs
  import opened HandlerProperties

  /** No attempted effect raised, and no publish was rejected after submission. */
  ghost predicate Delivered(trace: seq<Effect>, world: World) {
    forall i :: 0 <= i < |trace| ==>
      trace[i] !in world.failing && (trace[i].Publish? ==> trace[i] !in world.rejected)
  }

  /** `pub` raising when its publish is rejected after submission. */
  function PubAcknowledged(env: Env, data: Payload, world: World): (r: Run<Option<string>>)
    ensures r.trace == Pub(env, data, world).trace
    ensures r.result.Ok? <==> Pub(env, data, world).result.Ok? && Delivered(r.trace, world)
    ensures r.trace != [] && r.trace[0] !in world.failing && r.trace[0] in world.rejected
            ==> r.result == Err(Unacknowledged(r.trace[0]))
  {
    var p := Pub(env, data, world);
    if p.result.Ok? && p.trace != [] && p.trace[0] in world.rejected then
      Run(Err(Unacknowledged(p.trace[0])), p.trace)
    else
      p
  }

  /** `handler` with `PubAcknowledged` in place of `pub`; everything else as written. */
  function HandlerAcknowledged(cfg: Config, env: Env, input: Input, world: World): (r: Run<string>)
    ensures input.Malformed? ==> r == Raise(Undecodable)
    ensures r.result.Ok? ==> r.result.value == "ok"
  {
    match input
    case Malformed => Raise(Undecodable)
    case Decoded(data) =>
      if "table" in data then
        ExtractThenPublish(BqExtractTable(cfg, data, world), PubAcknowledged(env, data, world))
      else if "view" in data then
        ExtractThenPublish(BqExtractView(cfg, data, world), PubAcknowledged(env, data, world))
      else
        Raise(InvalidPayload)
  }

  /**
   * As written, a table extract that succeeds followed by a publish the
   * service rejects after submission still ends in "ok" from `main`.
   */
  lemma AsWrittenRejectionSwallowed(cfg: Config, env: Env, data: Payload, world: World)
    requires "table" in data && "project" in data && "dataset" in data
    requires "OUTPUT_TOPIC" in env && env["OUTPUT_TOPIC"] != "" && "ENTITY" in env
    requires TableRequest(cfg, data) !in world.failing
    requires Publish(env["OUTPUT_TOPIC"], Message(env["ENTITY"])) !in world.failing
    requires Publish(env["OUTPUT_TOPIC"], Message(env["ENTITY"])) in world.rejected
    ensures Handler(cfg, env, Decoded(data), world)
              == Run(Ok("ok"), [TableRequest(cfg, data), Publish(env["OUTPUT_TOPIC"], Message(env["ENTITY"]))])
    ensures Entry(cfg, env, Decoded(data), world).result.Ok?
    ensures !Delivered(Handler(cfg, env, Decoded(data), world).trace, world)
  {
    var t := Handler(cfg, env, Decoded(data), world).trace;
    assert t[1].Publish? && t[1] in world.rejected;
  }

  /** With the correction, every "ok" means every effect went through and was acknowledged. */
  lemma AcknowledgedSuccessDelivered(cfg: Config, env: Env, input: Input, world: World)
    ensures var r := HandlerAcknowledged(cfg, env, input, world);
            r.result.Ok? ==> Delivered(r.trace, world)
  {
  }

  /**
   * With the correction, a well-formed table payload returns "ok" exactly
   * when the extract succeeds and, if a topic is set, the publish is both
   * submitted and acknowledged.
   */
  lemma AcknowledgedTableIff(cfg: Config, env: Env, data: Payload, world: World)
    requires "table" in data && "project" in data && "dataset" in data
    requires "OUTPUT_TOPIC" in env && "ENTITY" in env
    ensures var p := Publish(env["OUTPUT_TOPIC"], Message(env["ENTITY"]));
            (HandlerAcknowledged(cfg, env, Decoded(data), world).result.Ok?
             <==> TableRequest(cfg, data) !in world.failing
                  && (env["OUTPUT_TOPIC"] == "" || (p !in world.failing && p !in world.rejected)))
  {
  }

  /** When no publish is rejected after submission, the correction changes nothing. */
  lemma AcknowledgedAgreesWithoutRejections(cfg: Config, env: Env, input: Input, world: World)
    requires world.rejected == {}
    ensures HandlerAcknowledged(cfg, env, input, world) == Handler(cfg, env, input, world)
  {
  }
}
