/** The lifecycle endpoints of service/endpoints.go as decision rules over
    the client: each endpoint validates its parameters before touching the
    client, calls the client in a fixed order, stops at the first error and
    maps the outcome to a fixed status code and message.

    Each rule is a predicate over the calls the endpoint made (as logged by
    the client, answers included) and the response; the endpoint methods are
    proved to follow their rule, and, over the in-memory store, to take the
    corresponding steps of the store. */
module Endpoints {

  import opened Outcomes
  import opened Catalog
  import opened Store
  import opened Clients
  import opened Utils
  import opened Decimal

  const StatusOK: int := 200
  const StatusCreated: int := 201
  const StatusNoContent: int := 204
  const StatusInternalServerError: int := 500

  const MissingParamsMsg: string := "Missing parameters"
  const BucketCreationFailMsg: string := "Error declaring bucket type"
  const ErrorBucketStatusMsg: string := "Bucket error"
  const UserGrantingFailMsg: string := "Error granting user"
  const UserRevokingFailMsg: string := "Error revoking user"

  /** The value an endpoint hands to the JSON encoder. */
  datatype Body =
    | Text(text: string)
    | Vars(env: map<string, string>)
    | PlanList(plans: seq<Plan>)
    | ErrorObject(error: string)
    | NoBody

  datatype Response = Response(code: int, body: Body)

  /** The configuration the endpoints read. The cluster hosts are held as the
      JSON text that encoding them produces. */
  datatype Config = Config(riakClusterHosts: string, riakHTTPPort: int, riakPBPort: int, riakRootCaCert: string)

  const HostsKey: string := "RIAK_HOSTS"
  const HTTPPortKey: string := "RIAK_HTTP_PORT"
  const PBPortKey: string := "RIAK_PB_PORT"
  const UserKey: string := "RIAK_USER"
  const PasswordKey: string := "RIAK_PASSWORD"
  const BucketTypeKey: string := "RIAK_BUCKET_TYPE"
  const BucketKey: string := "RIAK_BUCKET"
  const RootCaCertKey: string := "RIAK_ROOT_CA_CERT"

  /** The environment handed to a bound application. */
  function EnvVars(cfg: Config, creds: Creds, bucketType: string, bucketName: string): (env: map<string, string>)
    ensures env.Keys == {HostsKey, HTTPPortKey, PBPortKey, UserKey, PasswordKey, BucketTypeKey, BucketKey}
                        + (if cfg.riakRootCaCert != "" then {RootCaCertKey} else {})
    ensures env[UserKey] == creds.user && env[PasswordKey] == creds.pass
    ensures env[BucketKey] == bucketName && env[BucketTypeKey] == bucketType
    ensures env[HostsKey] == cfg.riakClusterHosts
    ensures ParseInt(env[HTTPPortKey]) == Some(cfg.riakHTTPPort)
    ensures ParseInt(env[PBPortKey]) == Some(cfg.riakPBPort)
    ensures RootCaCertKey in env <==> cfg.riakRootCaCert != ""
    ensures RootCaCertKey in env ==> env[RootCaCertKey] == cfg.riakRootCaCert
  {
    ParseFormatInt(cfg.riakHTTPPort);
    ParseFormatInt(cfg.riakPBPort);
    var base := map[
      HostsKey := cfg.riakClusterHosts,
      HTTPPortKey := FormatInt(cfg.riakHTTPPort),
      PBPortKey := FormatInt(cfg.riakPBPort),
      UserKey := creds.user,
      PasswordKey := creds.pass,
      BucketTypeKey := bucketType,
      BucketKey := bucketName];
    if cfg.riakRootCaCert != "" then base[RootCaCertKey := cfg.riakRootCaCert] else base
  }

  /** `after` is `before` with more calls appended. */
  ghost predicate Extends(before: seq<Call>, after: seq<Call>) {
    |after| >= |before| && after[..|before|] == before
  }

  // ---- The decision rules: calls made (in order) and response ----

  ghost predicate PlansRule(log: seq<Call>, r: Response) {
    && |log| == 1 && log[0].GetBucketTypesCall?
    && r == if log[0].err.Err? then Response(StatusInternalServerError, ErrorObject(log[0].err.msg))
            else Response(StatusOK, PlanList(log[0].plans))
  }

  ghost predicate CreateRule(bucketName: string, plan: string, log: seq<Call>, r: Response) {
    if bucketName == "" || plan == "" then
      log == [] && r == Response(StatusInternalServerError, Text(MissingParamsMsg))
    else
      && |log| == 1
      && log[0].CreateBucketCall? && log[0].bucketName == bucketName && log[0].bucketType == plan
      && r == if log[0].err.Ok? then Response(StatusOK, Text(""))
              else Response(StatusInternalServerError, Text(BucketCreationFailMsg))
  }

  ghost predicate BindRule(cfg: Config, bucketName: string, appHost: string, log: seq<Call>, r: Response) {
    if appHost == "" then
      log == [] && r == Response(StatusInternalServerError, Text(MissingParamsMsg))
    else
      && |log| >= 1
      && log[0].EnsureUserPresentCall? && log[0].word == appHost
      && if log[0].err.Err? then
           |log| == 1 && r == Response(StatusInternalServerError, Text(UserGrantingFailMsg))
         else
           && |log| >= 2
           && log[1].GrantUserAccessCall? && log[1].username == log[0].creds.user && log[1].bucketName == bucketName
           && if log[1].err.Err? then
                |log| == 2 && r == Response(StatusInternalServerError, Text(UserGrantingFailMsg))
              else
                && |log| == 3
                && log[2].GetBucketTypeCall? && log[2].bucketName == bucketName
                && r == Response(StatusCreated, Vars(EnvVars(cfg, log[0].creds, log[2].bucketType, bucketName)))
  }

  ghost predicate UnbindRule(bucketName: string, appHost: string, log: seq<Call>, r: Response) {
    if appHost == "" then
      log == [] && r == Response(StatusInternalServerError, Text(MissingParamsMsg))
    else
      && |log| == 1
      && log[0].RevokeUserAccessCall? && log[0].username == GenerateUsername(appHost) && log[0].bucketName == bucketName
      && r == if log[0].err.Ok? then Response(StatusOK, Text(""))
              else Response(StatusInternalServerError, Text(UserRevokingFailMsg))
  }

  ghost predicate StatusRule(bucketName: string, log: seq<Call>, r: Response) {
    && |log| == 1 && log[0].IsAliveCall? && log[0].bucketName == bucketName
    && r == if log[0].ok then Response(StatusNoContent, NoBody)
            else Response(StatusInternalServerError, Text(ErrorBucketStatusMsg))
  }

  // ---- Properties of the rules ----

  /** A failed bind hands out no credentials, and a grant is only ever
      attempted for the user that was just ensured successfully. */
  lemma BindFailureHidesCredentials(cfg: Config, bucketName: string, appHost: string, log: seq<Call>, r: Response)
    requires BindRule(cfg, bucketName, appHost, log, r)
    ensures r.code == StatusCreated <==> r.body.Vars?
    ensures r.code != StatusCreated ==> r.code == StatusInternalServerError && r.body.Text?
    ensures forall i :: 0 <= i < |log| && log[i].GrantUserAccessCall? ==>
              i == 1 && log[0].EnsureUserPresentCall? && log[0].err == Ok && log[i].username == log[0].creds.user
  {
  }

  /** Unbinding revokes access for the username that binding the same host
      derived (whenever the client derives it from the host, as the in-memory
      store does), and never deletes the user. */
  lemma UnbindTargetsTheBoundUser(cfg: Config, bucketName: string, appHost: string,
                                  bindLog: seq<Call>, bindResponse: Response,
                                  unbindLog: seq<Call>, unbindResponse: Response)
    requires BindRule(cfg, bucketName, appHost, bindLog, bindResponse)
    requires bindResponse.code == StatusCreated
    requires UnbindRule(bucketName, appHost, unbindLog, unbindResponse)
    requires forall i :: 0 <= i < |bindLog| && bindLog[i].EnsureUserPresentCall? ==>
               bindLog[i].creds.user == GenerateUsername(bindLog[i].word)
    ensures |bindLog| == 3 && |unbindLog| == 1
    ensures unbindLog[0].RevokeUserAccessCall?
    ensures unbindLog[0].username == bindLog[1].username && unbindLog[0].bucketName == bindLog[1].bucketName
    ensures forall i :: 0 <= i < |unbindLog| ==> !unbindLog[i].DeleteUserCall?
  {
  }

  // ---- The service ----

  class RiakService {
    const cfg: Config
    const client: Client

    constructor (cfg: Config, client: Client)
      ensures this.cfg == cfg && this.client == client
    {
      this.cfg := cfg;
      this.client := client;
    }

    method GetPlans() returns (r: Response)
      modifies client
      ensures Extends(old(client.calls), client.calls)
      ensures PlansRule(client.calls[|old(client.calls)|..], r)
      ensures client.backend.NilClient? ==> r == Response(StatusOK, PlanList([]))
      ensures client.backend.MemoryClient? ==>
        r.code == StatusOK && r.body.PlanList? && |r.body.plans| == 3 && ListsEveryPlan(r.body.plans)
    {
      var plans, err := client.GetBucketTypes();
      if err.Err? {
        return Response(StatusInternalServerError, ErrorObject(err.msg));
      }
      BucketTypesAreTheThreeNames();
      return Response(StatusOK, PlanList(plans));
    }

    method CreateInstance(bucketName: string, plan: string) returns (r: Response)
      modifies client, client.Footprint()
      ensures Extends(old(client.calls), client.calls)
      ensures CreateRule(bucketName, plan, client.calls[|old(client.calls)|..], r)
      ensures bucketName == "" || plan == "" ==> unchanged(client.Footprint())
      ensures client.backend.MemoryClient? && bucketName != "" && plan != "" ==>
        var s := CreateBucketStep(old(client.backend.store.State()), bucketName, plan);
        client.backend.store.State() == s.next && (r.code == StatusOK <==> s.answer == Ok)
    {
      if bucketName == "" || plan == "" {
        return Response(StatusInternalServerError, Text(MissingParamsMsg));
      }
      var err := client.CreateBucket(bucketName, plan);
      if err.Err? {
        return Response(StatusInternalServerError, Text(BucketCreationFailMsg));
      }
      return Response(StatusOK, Text(""));
    }

    method BindInstance(bucketName: string, appHost: string) returns (r: Response)
      modifies client, client.Footprint()
      ensures Extends(old(client.calls), client.calls)
      ensures BindRule(cfg, bucketName, appHost, client.calls[|old(client.calls)|..], r)
      ensures appHost == "" ==> unchanged(client.Footprint())
      ensures client.backend.MemoryClient? && appHost != "" ==>
        var e := EnsureUserStep(old(client.backend.store.State()), appHost);
        var g := GrantStep(e.next, e.answer.user, bucketName);
        && client.backend.store.State() == g.next
        && r == Response(StatusCreated, Vars(EnvVars(cfg, e.answer, client.backend.store.GetBucketType(bucketName), bucketName)))
    {
      if appHost == "" {
        return Response(StatusInternalServerError, Text(MissingParamsMsg));
      }
      var user, pass, err := client.EnsureUserPresent(appHost);
      if err.Err? {
        return Response(StatusInternalServerError, Text(UserGrantingFailMsg));
      }
      err := client.GrantUserAccess(user, bucketName);
      if err.Err? {
        return Response(StatusInternalServerError, Text(UserGrantingFailMsg));
      }
      var bucketType := client.GetBucketType(bucketName);
      var envVars := map[
        HostsKey := cfg.riakClusterHosts,
        HTTPPortKey := FormatInt(cfg.riakHTTPPort),
        PBPortKey := FormatInt(cfg.riakPBPort),
        UserKey := user,
        PasswordKey := pass,
        BucketTypeKey := bucketType,
        BucketKey := bucketName];
      if cfg.riakRootCaCert != "" {
        envVars := envVars[RootCaCertKey := cfg.riakRootCaCert];
      }
      return Response(StatusCreated, Vars(envVars));
    }

    method UnbindInstance(bucketName: string, appHost: string) returns (r: Response)
      modifies client
      ensures Extends(old(client.calls), client.calls)
      ensures UnbindRule(bucketName, appHost, client.calls[|old(client.calls)|..], r)
      ensures client.backend.MemoryClient? && appHost != "" ==>
        r == Response(StatusInternalServerError, Text(UserRevokingFailMsg))
    {
      if appHost == "" {
        return Response(StatusInternalServerError, Text(MissingParamsMsg));
      }
      var username := GenerateUsername(appHost);
      var err := client.RevokeUserAccess(username, bucketName);
      if err.Err? {
        return Response(StatusInternalServerError, Text(UserRevokingFailMsg));
      }
      return Response(StatusOK, Text(""));
    }

    method CheckInstanceStatus(bucketName: string) returns (r: Response)
      modifies client
      ensures Extends(old(client.calls), client.calls)
      ensures StatusRule(bucketName, client.calls[|old(client.calls)|..], r)
      ensures r.code == StatusNoContent <==> client.isAlive(bucketName)
    {
      var ok := client.IsAlive(bucketName);
      if ok {
        return Response(StatusNoContent, NoBody);
      }
      return Response(StatusInternalServerError, Text(ErrorBucketStatusMsg));
    }

    /** Acknowledged without any effect: instances persist once created. */
    function RemoveInstance(bucketName: string): (r: Response)
      ensures r.code == StatusOK && r.body == Text("")
    {
      Response(StatusOK, Text(""))
    }

    /** The bind event needs no work. */
    function BindInstanceEvent(bucketName: string): (r: Response)
      ensures r.code == StatusCreated && r.body == Text("")
    {
      Response(StatusCreated, Text(""))
    }

    /** The unbind event needs no work. */
    function UnbindInstanceEvent(bucketName: string): (r: Response)
      ensures r.code == StatusOK && r.body == Text("")
    {
      Response(StatusOK, Text(""))
    }
  }
}
