/**
 * Credential strategy selection of src/credentials.py: which environment
 * variables are present picks a strategy once, at construction; `get` turns
 * that strategy into a plan for obtaining credentials.
 */
module Credentials {
  import opened Wrappers
  import opened Environ

  /** The one OAuth scope every plan asks for. */
  const TargetScopes: seq<string> := ["https://www.googleapis.com/auth/cloud-platform"]

  /** Seconds an impersonated token stays valid. */
  const ImpersonationLifetime: int := 300

  const TokenVar: string := "GOOGLE_OAUTH_ACCESS_TOKEN"
  const KeyFileVar: string := "GOOGLE_APPLICATION_CREDENTIALS"
  const ProjectVar: string := "PROJECT"

  const PrincipalPrefix: string := "terraform@"
  const PrincipalSuffix: string := ".iam.gserviceaccount.com"

  /** The `_auth_method` chosen at construction; `Adc` is the source's `None`. */
  datatype Strategy = User | SA | Adc

  /** Where the token that gets impersonated comes from. */
  datatype Source =
    | UserAccessToken
    | ServiceAccountFile(path: string, scopes: seq<string>)

  /** How credentials are obtained. */
  datatype Plan =
    | Impersonated(source: Source, principal: string, scopes: seq<string>, lifetime: int)
    | Default(scopes: seq<string>)

  /** `os.environ[name]` on an unset variable. */
  datatype CredentialError = MissingVariable(name: string)

  /** `Credentials.__init__`: a user token beats a key file, which beats nothing. */
  function Select(env: Env): (s: Strategy)
    ensures s == User <==> TokenVar in env
    ensures s == SA <==> TokenVar !in env && KeyFileVar in env
    ensures s == Adc <==> TokenVar !in env && KeyFileVar !in env
  {
    if TokenVar in env then User
    else if KeyFileVar in env then SA
    else Adc
  }

  /** The service account impersonated for a project. */
  function Principal(project: string): (p: string)
    ensures PrincipalPrefix <= p
    ensures |p| == |PrincipalPrefix| + |project| + |PrincipalSuffix|
    ensures p[|PrincipalPrefix|..|p| - |PrincipalSuffix|] == project
    ensures p[|p| - |PrincipalSuffix|..] == PrincipalSuffix
  {
    var p := PrincipalPrefix + project + PrincipalSuffix;
    assert p[|PrincipalPrefix|..|p| - |PrincipalSuffix|] == project;
    p
  }

  /** Reads the project back out of a principal of the form `Principal` builds. */
  function ProjectOf(principal: string): (r: Option<string>)
    ensures r.Some? ==> principal == Principal(r.value)
  {
    var n := |PrincipalPrefix| + |PrincipalSuffix|;
    if |principal| < n
       || principal[..|PrincipalPrefix|] != PrincipalPrefix
       || principal[|principal| - |PrincipalSuffix|..] != PrincipalSuffix
    then None
    else
      var project := principal[|PrincipalPrefix|..|principal| - |PrincipalSuffix|];
      assert principal == PrincipalPrefix + project + PrincipalSuffix;
      Some(project)
  }

  /** Every scope list in a plan, including the key file's own, is `TargetScopes`. */
  predicate ScopedToCloudPlatform(plan: Plan) {
    && plan.scopes == TargetScopes
    && (plan.Impersonated? && plan.source.ServiceAccountFile? ==> plan.source.scopes == TargetScopes)
  }

  /**
   * `Credentials.get`: branches on the stored strategy only. `User` and `SA`
   * read their source (the key file path for `SA`, first), then `PROJECT`,
   * and impersonate the project's terraform account; `Adc` reads nothing.
   */
  function Get(s: Strategy, env: Env): (r: Result<Plan, CredentialError>)
    ensures s == Adc ==> r == Ok(Default(TargetScopes))
    ensures r.Ok? ==> ScopedToCloudPlatform(r.value)
    ensures r.Err? <==> s != Adc && (ProjectVar !in env || (s == SA && KeyFileVar !in env))
    ensures r.Err? ==> r.error.name !in env
    ensures s == SA && KeyFileVar !in env ==> r == Err(MissingVariable(KeyFileVar))
    ensures r.Ok? && s != Adc ==>
              && r.value.Impersonated?
              && ProjectOf(r.value.principal) == Some(env[ProjectVar])
              && r.value.lifetime == ImpersonationLifetime
              && r.value.source == (if s == User then UserAccessToken else ServiceAccountFile(env[KeyFileVar], TargetScopes))
  {
    match s
    case Adc => Ok(Default(TargetScopes))
    case User => Impersonate(UserAccessToken, env)
    case SA =>
      if KeyFileVar !in env then Err(MissingVariable(KeyFileVar))
      else Impersonate(ServiceAccountFile(env[KeyFileVar], TargetScopes), env)
  }

  /** Wraps `source` in impersonation of the terraform account of `PROJECT`. */
  function Impersonate(source: Source, env: Env): (r: Result<Plan, CredentialError>)
    ensures r.Err? <==> ProjectVar !in env
    ensures r.Err? ==> r.error == MissingVariable(ProjectVar)
    ensures r.Ok? ==> r.value.Impersonated? && r.value.source == source
                      && ProjectOf(r.value.principal) == Some(env[ProjectVar])
  {
    if ProjectVar !in env then Err(MissingVariable(ProjectVar))
    else
      PrincipalRoundTrip(env[ProjectVar]);
      Ok(Impersonated(source, Principal(env[ProjectVar]), TargetScopes, ImpersonationLifetime))
  }

  /** `ProjectOf` undoes `Principal`, so distinct projects give distinct principals. */
  lemma PrincipalRoundTrip(project: string)
    ensures ProjectOf(Principal(project)) == Some(project)
  {
  }

  lemma PrincipalInjective(p: string, q: string)
    requires Principal(p) == Principal(q)
    ensures p == q
  {
  }

  /** Only the presence of the two credential variables matters to the choice. */
  lemma SelectReadsOnlyPresence(e1: Env, e2: Env)
    requires (TokenVar in e1 <==> TokenVar in e2) && (KeyFileVar in e1 <==> KeyFileVar in e2)
    ensures Select(e1) == Select(e2)
  {
  }

  /**
   * `get` does not re-check how the strategy was chosen: it reads only the key
   * file path and `PROJECT`, so e.g. a `User` strategy still impersonates after
   * the token variable has gone.
   */
  lemma GetReadsOnlyKeyFileAndProject(s: Strategy, e1: Env, e2: Env)
    requires KeyFileVar in e1 <==> KeyFileVar in e2
    requires KeyFileVar in e1 ==> e1[KeyFileVar] == e2[KeyFileVar]
    requires ProjectVar in e1 <==> ProjectVar in e2
    requires ProjectVar in e1 ==> e1[ProjectVar] == e2[ProjectVar]
    ensures Get(s, e1) == Get(s, e2)
  {
  }

  /**
   * Resolving credentials end to end: ambient default credentials when
   * neither variable is set; otherwise impersonation of the project's
   * terraform account, sourced from the user token whenever one is set.
   */
  lemma ResolvedPlan(env: Env)
    ensures var r := Get(Select(env), env);
            && (TokenVar !in env && KeyFileVar !in env ==> r == Ok(Default(TargetScopes)))
            && (TokenVar in env || KeyFileVar in env ==>
                  && (r.Ok? <==> ProjectVar in env)
                  && (r.Ok? ==> r.value.Impersonated? && r.value.principal == Principal(env[ProjectVar])
                                && r.value.lifetime == ImpersonationLifetime))
            && (TokenVar in env && r.Ok? ==> r.value.source == UserAccessToken)
            && (TokenVar !in env && KeyFileVar in env && r.Ok? ==>
                  r.value.source == ServiceAccountFile(env[KeyFileVar], TargetScopes))
  {
  }
}
