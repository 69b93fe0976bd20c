/**
 * Calls into the managed services (BigQuery, Cloud Storage, Pub/Sub) as
 * opaque effect records, and a run of the program as a result plus the
 * ordered trace of the effects it attempted.
 */
module Effects {
  import opened Wrappers

  /** A fully-qualified BigQuery table or view: `project.dataset.table`. */
  datatype TableRef = TableRef(project: string, dataset: string, table: string)

  /** The notification `pub` serialises to JSON and publishes. */
  datatype Notification = Notification(
    entity: string,
    component: string,
    environment: string,
    event: string,
    info: string,
    bq: TableRef)

  /** One call into a managed service, with the arguments the program passes. */
  datatype Effect =
    | ExtractTable(source: TableRef, destination: string, location: string)
    | QueryView(view: TableRef, location: string)
    | UploadBlob(bucket: string, name: string)
    | Publish(topic: string, message: Notification)

  /**
   * What the services answer. An effect in `failing` raises when the program
   * attempts it: a failed job, a rejected upload, a publish whose submission
   * raises. A publish in `rejected` is submitted without raising, but its
   * future later resolves with an error; the program only sees that in the
   * future's done-callback.
   */
  datatype World = World(failing: set<Effect>, rejected: set<Effect>)

  /** The exceptions the program can raise. */
  datatype Fault =
    | MissingKey(key: string)        // KeyError on the payload
    | MissingEnvVar(name: string)    // KeyError on os.environ
    | Undecodable                    // base64 or JSON decoding failed
    | InvalidPayload                 // neither "table" nor "view" in the payload
    | Upstream(effect: Effect)       // a service call raised
    | Unacknowledged(effect: Effect) // a submitted publish resolved with an error

  /** A result together with the effects attempted on the way, in order. */
  datatype Run<+T> = Run(result: Result<T, Fault>, trace: seq<Effect>)

  /** Finishing without touching any service. */
  function Return<T>(v: T): (r: Run<T>)
    ensures r.result.Ok? && r.result.value == v && r.trace == []
  {
    Run(Ok(v), [])
  }

  /** Raising before touching any service. */
  function Raise<T>(f: Fault): (r: Run<T>)
    ensures r.result.Err? && r.result.error == f && r.trace == []
  {
    Run(Err(f), [])
  }

  /** Attempting one service call and waiting for its outcome. */
  function Perform(e: Effect, world: World): (r: Run<()>)
    ensures r.trace == [e]
    ensures r.result.Ok? <==> e !in world.failing
    ensures r.result.Err? ==> r.result.error == Upstream(e)
  {
    if e in world.failing then Run(Err(Upstream(e)), [e]) else Run(Ok(()), [e])
  }

  /**
   * Sequential composition: `b` runs only when `a` succeeded; a fault in `a`
   * propagates unchanged and nothing of `b` is attempted.
   */
  function Then<S, T>(a: Run<S>, b: Run<T>): (r: Run<T>)
    ensures a.trace <= r.trace
    ensures r.result.Ok? <==> a.result.Ok? && b.result.Ok?
    ensures a.result.Err? ==> r.result == Err(a.result.error) && r.trace == a.trace
  {
    if a.result.Err? then Run(Err(a.result.error), a.trace)
    else Run(b.result, a.trace + b.trace)
  }

  /** No effect in `trace` raised. */
  ghost predicate Succeeded(trace: seq<Effect>, world: World) {
    forall i :: 0 <= i < |trace| ==> trace[i] !in world.failing
  }

  /**
   * A run swallows no raised fault and invents none: when it ends in a
   * service fault, that fault is the last effect attempted, the service did
   * raise on it, and no earlier effect raised; otherwise no attempted effect
   * raised. Rejections reported only to a done-callback (`rejected`) are
   * outside this invariant.
   */
  ghost predicate Honest<T>(r: Run<T>, world: World) {
    if r.result.Err? && r.result.error.Upstream? then
      && |r.trace| > 0
      && r.trace[|r.trace| - 1] == r.result.error.effect
      && r.result.error.effect in world.failing
      && Succeeded(r.trace[..|r.trace| - 1], world)
    else
      Succeeded(r.trace, world)
  }

  /** Sequencing two honest runs gives an honest run. */
  lemma ThenHonest<S, T>(a: Run<S>, b: Run<T>, world: World)
    requires Honest(a, world) && Honest(b, world)
    ensures Honest(Then(a, b), world)
  {
  }
}
