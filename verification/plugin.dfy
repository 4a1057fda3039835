/** The `vault` command of the plugin: argument checks, service-key
    discovery through the platform API, selection of the first key, and the
    launch of the secrets tool. The platform session, the HTTP client, the
    JSON decoder and the child process are inputs; every fatal log line
    becomes an `ErrorKind`. */
module Plugin {
  import opened Wrappers
  import opened ServiceKeys
  import opened Rewrite
  import opened Launch

  /** The plugin command name the logic is attached to. */
  const CommandName: string := "vault"
  /** `http.StatusOK`, the only status accepted. */
  const StatusOK: int := 200

  /** Why an invocation terminates. All but `EmptyArgs` are fatal log lines;
      `EmptyArgs` is the index-out-of-range panic of reading `args[0]`. */
  datatype ErrorKind =
    | EmptyArgs
    | Usage
    | ServiceLookup(cause: string)
    | AccessToken(cause: string)
    | ApiEndpoint(cause: string)
    | RequestBuild(cause: string)
    | Transport(cause: string)
    | UnexpectedStatus(status: int)
    | Decode(cause: string)
    | NoServiceKey(service: string)
    | SubprocessFailure(cause: string)

  /** An HTTP response: its status and the outcome of decoding its body. */
  datatype Response = Response(status: int, body: Result<ServiceKeyList, string>)

  /** The request for the service keys of one instance. */
  datatype Request = Request(url: string, authorization: string)

  /** Everything the plugin learns from outside during one invocation.
      `getService` maps a service name to its instance GUID; `pathEscape`
      and `newRequest` stand for `url.PathEscape` and the error result of
      `http.NewRequest`; `response` is what the single request brings back. */
  datatype Env = Env(
    getService: string -> Result<string, string>,
    accessToken: Result<string, string>,
    apiEndpoint: Result<string, string>,
    pathEscape: string -> string,
    newRequest: string -> Result<(), string>,
    response: Result<Response, string>)

  /** The service-key listing URL of an instance. */
  function KeysUrl(apiEndpoint: string, escapedGuid: string): string {
    apiEndpoint + "/v2/service_instances/" + escapedGuid + "/service_keys"
  }

  /** The listing request: the access token goes into `Authorization`
      exactly as the platform supplied it. Only the URL feeds the rest of
      the model (through `newRequest`); the header is kept for this contract,
      since the response is an input and does not depend on the request. */
  function KeysRequest(apiEndpoint: string, guid: string, token: string, env: Env): (req: Request)
    ensures req.authorization == token
    ensures HasPrefix(req.url, apiEndpoint + "/v2/service_instances/")
  {
    var url := KeysUrl(apiEndpoint, env.pathEscape(guid));
    Request(url, token)
  }

  /** For one endpoint, the URL determines the escaped instance GUID. */
  lemma KeysUrlIdentifiesInstance(apiEndpoint: string, e1: string, e2: string)
    requires KeysUrl(apiEndpoint, e1) == KeysUrl(apiEndpoint, e2)
    ensures e1 == e2
  {
    var head := apiEndpoint + "/v2/service_instances/";
    var u := KeysUrl(apiEndpoint, e1);
    assert e2 == u[|head|..|u| - |"/service_keys"|];
  }

  /** The key a successful listing selects: always the first resource. */
  function SelectKey(keys: ServiceKeyList, serviceName: string): (r: Result<Entity, ErrorKind>)
    ensures r.Success? <==> |keys.resources| > 0
    ensures r.Success? ==> r.value == keys.resources[0].entity
    ensures r.Failure? ==> r.error == NoServiceKey(serviceName)
  {
    if |keys.resources| == 0 then Failure(NoServiceKey(serviceName))
    else Success(keys.resources[0].entity)
  }

  /** Accepts a response only with status 200 and a decodable body; the body
      is not looked at for any other status. */
  function CheckResponse(resp: Response): (r: Result<ServiceKeyList, ErrorKind>)
    ensures r.Success? <==> resp.status == StatusOK && resp.body.Success?
    ensures r.Success? ==> r.value == resp.body.value
    ensures resp.status != StatusOK ==> r == Failure(UnexpectedStatus(resp.status))
    ensures resp.status == StatusOK && resp.body.Failure? ==> r == Failure(Decode(resp.body.error))
  {
    if resp.status != StatusOK then Failure(UnexpectedStatus(resp.status))
    else resp.body.MapFailure(e => Decode(e))
  }

  /** The three platform-session calls all succeed. */
  predicate LookupsSucceed(serviceName: string, env: Env) {
    env.getService(serviceName).Success? && env.accessToken.Success? && env.apiEndpoint.Success?
  }

  /** The listing URL built from the looked-up endpoint and instance GUID. */
  function ListingUrl(serviceName: string, env: Env): string
    requires LookupsSucceed(serviceName, env)
  {
    KeysUrl(env.apiEndpoint.value, env.pathEscape(env.getService(serviceName).value))
  }

  /** The request is built and a response comes back. */
  predicate ResponseArrives(serviceName: string, env: Env) {
    && LookupsSucceed(serviceName, env)
    && env.newRequest(ListingUrl(serviceName, env)).Success?
    && env.response.Success?
  }

  /** Every step of the fetch succeeds, stated input by input. */
  predicate FetchSucceeds(serviceName: string, env: Env) {
    && ResponseArrives(serviceName, env)
    && env.response.value.status == StatusOK
    && env.response.value.body.Success?
    && |env.response.value.body.value.resources| > 0
  }

  /** Service lookup, token, endpoint, request, transport, status, decoding
      and key selection, in that order; the first failing step decides the
      error, and a fetch that passes them all yields the first key. */
  function FetchKey(serviceName: string, env: Env): (r: Result<Entity, ErrorKind>)
    ensures env.getService(serviceName).Failure? ==>
      r == Failure(ServiceLookup(env.getService(serviceName).error))
    ensures env.getService(serviceName).Success? && env.accessToken.Failure? ==>
      r == Failure(AccessToken(env.accessToken.error))
    ensures env.getService(serviceName).Success? && env.accessToken.Success? && env.apiEndpoint.Failure? ==>
      r == Failure(ApiEndpoint(env.apiEndpoint.error))
    ensures LookupsSucceed(serviceName, env) && env.newRequest(ListingUrl(serviceName, env)).Failure? ==>
      r == Failure(RequestBuild(env.newRequest(ListingUrl(serviceName, env)).error))
    ensures LookupsSucceed(serviceName, env) && env.newRequest(ListingUrl(serviceName, env)).Success? &&
            env.response.Failure? ==>
      r == Failure(Transport(env.response.error))
    ensures ResponseArrives(serviceName, env) && env.response.value.status != StatusOK ==>
      r == Failure(UnexpectedStatus(env.response.value.status))
    ensures ResponseArrives(serviceName, env) && env.response.value.status == StatusOK &&
            env.response.value.body.Failure? ==>
      r == Failure(Decode(env.response.value.body.error))
    ensures ResponseArrives(serviceName, env) && env.response.value.status == StatusOK &&
            env.response.value.body.Success? && |env.response.value.body.value.resources| == 0 ==>
      r == Failure(NoServiceKey(serviceName))
    ensures r.Success? <==> FetchSucceeds(serviceName, env)
    ensures r.Success? ==> r.value == env.response.value.body.value.resources[0].entity
  {
    var guid :- env.getService(serviceName).MapFailure(e => ServiceLookup(e));
    var token :- env.accessToken.MapFailure(e => AccessToken(e));
    var endpoint :- env.apiEndpoint.MapFailure(e => ApiEndpoint(e));
    var req := KeysRequest(endpoint, guid, token, env);
    var _ :- env.newRequest(req.url).MapFailure(e => RequestBuild(e));
    var resp :- env.response.MapFailure(e => Transport(e));
    var keys :- CheckResponse(resp);
    SelectKey(keys, serviceName)
  }

  /** The first resource of a successful listing. */
  function FirstKey(serviceName: string, env: Env): Entity
    requires FetchSucceeds(serviceName, env)
  {
    env.response.value.body.value.resources[0].entity
  }

  /** What an invocation decides before anything is spawned. */
  datatype Step = Skip | Fatal(error: ErrorKind) | Launch(plan: LaunchPlan)

  /** The decision part of `Run`: other commands are ignored, a bare
      `vault` is a usage error, and otherwise the first service key of the
      named instance drives a launch of `vault` with `args[2..]` rewritten. */
  function Plan(args: seq<string>, env: Env): (r: Step)
    ensures |args| == 0 ==> r == Fatal(EmptyArgs)
    ensures r.Skip? <==> |args| > 0 && args[0] != CommandName
    ensures args == [CommandName] ==> r == Fatal(Usage)
    ensures r.Launch? <==> |args| >= 2 && args[0] == CommandName && FetchSucceeds(args[1], env)
    ensures r.Launch? ==> r.plan == MakePlan(FirstKey(args[1], env), args[2..])
    ensures |args| >= 2 && args[0] == CommandName && FetchKey(args[1], env).Failure? ==>
      r == Fatal(FetchKey(args[1], env).error)
  {
    if |args| == 0 then Fatal(EmptyArgs)
    else if args[0] != CommandName then Skip
    else if |args| < 2 then Fatal(Usage)
    else
      match FetchKey(args[1], env)
      case Failure(e) => Fatal(e)
      case Success(key) => Launch(MakePlan(key, args[2..]))
  }

  /** How an invocation ends: it returns, or the process terminates. */
  datatype Outcome = Returned | Terminated(error: ErrorKind)

  /** The whole command; `exec` runs a plan and reports whether the child
      could be started and exited with status zero. */
  function Run(args: seq<string>, env: Env, exec: LaunchPlan -> Result<(), string>): (r: Outcome)
    ensures r == Returned <==>
      Plan(args, env).Skip? || (Plan(args, env).Launch? && exec(Plan(args, env).plan).Success?)
    ensures Plan(args, env).Fatal? ==> r == Terminated(Plan(args, env).error)
  {
    match Plan(args, env)
    case Skip => Returned
    case Fatal(e) => Terminated(e)
    case Launch(p) =>
      match exec(p)
      case Success(_) => Returned
      case Failure(e) => Terminated(SubprocessFailure(e))
  }

  /** The position of the check that raises an error, counting the inputs
      consumed before it: the platform lookups, then request building, then
      the response's transport outcome and status, then its body. */
  function Rank(e: ErrorKind): nat {
    match e
    case EmptyArgs => 0
    case Usage => 0
    case ServiceLookup(_) => 1
    case AccessToken(_) => 2
    case ApiEndpoint(_) => 3
    case RequestBuild(_) => 4
    case Transport(_) => 5
    case UnexpectedStatus(_) => 5
    case Decode(_) => 6
    case NoServiceKey(_) => 6
    case SubprocessFailure(_) => 7
  }

  /** Two responses with the same transport outcome and, if one arrived,
      the same status; their bodies may differ. */
  predicate SameStatus(r1: Result<Response, string>, r2: Result<Response, string>) {
    && r1.Success? == r2.Success?
    && (r1.Failure? ==> r1.error == r2.error)
    && (r1.Success? ==> r1.value.status == r2.value.status)
  }

  /** Two environments that agree on every input consumed up to rank `k`. */
  ghost predicate AgreeThrough(k: nat, serviceName: string, env1: Env, env2: Env) {
    && (k >= 1 ==> env1.getService(serviceName) == env2.getService(serviceName))
    && (k >= 2 ==> env1.accessToken == env2.accessToken)
    && (k >= 3 ==> env1.apiEndpoint == env2.apiEndpoint)
    && (k >= 4 ==> forall g :: env1.pathEscape(g) == env2.pathEscape(g))
    && (k >= 4 ==> forall u :: env1.newRequest(u) == env2.newRequest(u))
    && (k >= 5 ==> SameStatus(env1.response, env2.response))
    && (k >= 6 ==> env1.response == env2.response)
  }

  /** The service name, when the arguments hold one. */
  function ServiceName(args: seq<string>): string {
    if |args| >= 2 then args[1] else ""
  }

  /** Fail-fast ordering: a fatal error is decided by the inputs consumed up
      to its check alone, so nothing after the failing step is consulted. */
  lemma FailureIgnoresLaterInputs(args: seq<string>, env1: Env, env2: Env)
    requires Plan(args, env1).Fatal?
    requires AgreeThrough(Rank(Plan(args, env1).error), ServiceName(args), env1, env2)
    ensures Plan(args, env2) == Plan(args, env1)
  {
  }

  /** A status other than 200 is fatal whatever the body holds: the body is
      never decoded. */
  lemma StatusCheckedBeforeDecode(args: seq<string>, env: Env, status: int, b1: Result<ServiceKeyList, string>, b2: Result<ServiceKeyList, string>)
    requires status != StatusOK
    ensures !Plan(args, env.(response := Success(Response(status, b1)))).Launch?
    ensures Plan(args, env.(response := Success(Response(status, b1)))) ==
            Plan(args, env.(response := Success(Response(status, b2))))
    ensures |args| >= 2 && args[0] == CommandName && LookupsSucceed(args[1], env) &&
            env.newRequest(ListingUrl(args[1], env)).Success? ==>
      Plan(args, env.(response := Success(Response(status, b1)))) == Fatal(UnexpectedStatus(status))
  {
  }

  /** An empty listing never launches; once every earlier step succeeded it
      is reported as a missing service key, before any rewrite or launch. */
  lemma EmptyListingNeverLaunches(args: seq<string>, env: Env)
    requires env.response.Success? && env.response.value.body == Success(ServiceKeyList([]))
    ensures !Plan(args, env).Launch?
    ensures |args| >= 2 && args[0] == CommandName && ResponseArrives(args[1], env) &&
            env.response.value.status == StatusOK ==>
      Plan(args, env) == Fatal(NoServiceKey(args[1]))
  {
  }

  /** Only the first service key matters: the keys after it never change
      the decision. */
  lemma FirstKeySelected(args: seq<string>, env: Env, status: int, first: Resource, more: seq<Resource>)
    ensures Plan(args, env.(response := Success(Response(status, Success(ServiceKeyList([first] + more)))))) ==
            Plan(args, env.(response := Success(Response(status, Success(ServiceKeyList([first]))))))
  {
  }

  /** The subcommand and the service name never reach the child: its
      arguments are the rewritten `args[2..]`, one for one and in order. */
  lemma LaunchForwardsTrailingArgs(args: seq<string>, env: Env)
    requires Plan(args, env).Launch?
    ensures |Plan(args, env).plan.args| == |args| - 2
    ensures forall i :: 2 <= i < |args| ==>
      Plan(args, env).plan.args[i - 2] == RewriteArg(args[i], FirstKey(args[1], env).credentials)
  {
  }

  /** The child process is consulted only when the decision is a launch. */
  lemma SubprocessOnlyOnLaunch(args: seq<string>, env: Env, exec1: LaunchPlan -> Result<(), string>, exec2: LaunchPlan -> Result<(), string>)
    requires !Plan(args, env).Launch?
    ensures Run(args, env, exec1) == Run(args, env, exec2)
  {
  }

  /** A failing child terminates the invocation with its error. */
  lemma SubprocessFailureIsFatal(args: seq<string>, env: Env, exec: LaunchPlan -> Result<(), string>)
    requires Plan(args, env).Launch? && exec(Plan(args, env).plan).Failure?
    ensures Run(args, env, exec) == Terminated(SubprocessFailure(exec(Plan(args, env).plan).error))
  {
  }

  /** A full invocation, `vault my-vault read cf_i/secret/data`, against a
      platform that resolves `my-vault` to `inst-1` and lists one key whose
      generic path is `instances/inst-1`. */
  lemma EndToEndExample(env: Env, key: Entity)
    requires env.getService("my-vault") == Success("inst-1")
    requires env.accessToken.Success? && env.apiEndpoint.Success?
    requires forall u :: env.newRequest(u).Success?
    requires env.response == Success(Response(200, Success(ServiceKeyList([Resource(key)]))))
    requires key.credentials.backends.generic == "instances/inst-1"
    ensures Plan(["vault", "my-vault", "read", "cf_i/secret/data"], env) ==
      Launch(LaunchPlan("vault", ["read", "instances/inst-1/secret/data"],
                        ["VAULT_TOKEN=" + key.credentials.auth.token, "VAULT_ADDR=" + key.credentials.address]))
  {
    RewriteAliased(Instance, "secret/data", key.credentials);
    assert "instances/inst-1" + "/" + "secret/data" == "instances/inst-1/secret/data";
    assert EnvEntry(TokenVar, key.credentials.auth.token) == "VAULT_TOKEN=" + key.credentials.auth.token;
    assert EnvEntry(AddressVar, key.credentials.address) == "VAULT_ADDR=" + key.credentials.address;
  }
}
