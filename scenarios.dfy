/** The sequences of requests that the unit tests in service/service_test.go
    send to a service backed by a fresh in-memory store, with the responses
    and the tables the model proves for them. */
module Scenarios {

  import opened Outcomes
  import opened Store
  import opened Clients
  import opened Endpoints
  import Utils
  import opened Decimal

  /** No parameters, an unknown plan, a valid creation, then the same
      creation again. */
  method InstanceCreationScenario() returns (r1: Response, r2: Response, r3: Response, r4: Response,
                                             buckets: map<string, string>)
    ensures r1 == Response(StatusInternalServerError, Text(MissingParamsMsg))
    ensures r2 == Response(StatusInternalServerError, Text(BucketCreationFailMsg))
    ensures r3 == Response(StatusOK, Text(""))
    ensures r4 == Response(StatusInternalServerError, Text(BucketCreationFailMsg))
    ensures buckets == map["test-bucket" := "tsuru-counter"]
  {
    var store := new Dummy();
    var client := new Client(MemoryClient(store), _ => true);
    var service := new RiakService(Config("null", 8098, 8087, ""), client);
    r1 := service.CreateInstance("", "");
    r2 := service.CreateInstance("test-bucket", "wrong");
    assert store.buckets == map[];
    r3 := service.CreateInstance("test-bucket", "tsuru-counter");
    assert store.buckets == map["test-bucket" := "tsuru-counter"];
    r4 := service.CreateInstance("test-bucket", "tsuru-counter");
    buckets := store.buckets;
  }

  /** A first binding of an application host, then the same binding again:
      both answer the same credentials (username "tsuru_" followed by the
      host, password the host itself), and the user is stored once with the
      bucket once in its ACL. */
  method InstanceBindingScenario() returns (r1: Response, r2: Response, users: map<string, UserProps>)
    ensures r1 == r2
    ensures r1 == Response(StatusCreated, Vars(EnvVars(Config("null", 8098, 8087, ""),
                             Creds("tsuru_myapp.tsuru.io", "myapp.tsuru.io"), "testbuckettype", "testinstance")))
    ensures r1.body.env[HTTPPortKey] == "8098" && r1.body.env[PBPortKey] == "8087"
    ensures users == map["tsuru_myapp.tsuru.io" := UserProps("tsuru_myapp.tsuru.io", "myapp.tsuru.io", ["testinstance"])]
  {
    var store := new Dummy();
    store.buckets := map["testinstance" := "testbuckettype"];
    var client := new Client(MemoryClient(store), _ => true);
    var cfg := Config("null", 8098, 8087, "");  // hosts: the JSON of a nil host list
    var service := new RiakService(cfg, client);
    var creds := Creds(Utils.GenerateUsername("myapp.tsuru.io"), "myapp.tsuru.io");
    assert creds.user == "tsuru_myapp.tsuru.io";
    var expected := map[creds.user := UserProps(creds.user, creds.pass, ["testinstance"])];
    ghost var t0 := store.State();
    ghost var e1 := EnsureUserStep(t0, "myapp.tsuru.io");
    assert e1.answer == creds;
    assert e1.next.users == map[creds.user := UserProps(creds.user, creds.pass, [])];
    assert [] + ["testinstance"] == ["testinstance"];
    assert GrantStep(e1.next, creds.user, "testinstance").next.users == expected;
    r1 := service.BindInstance("testinstance", "myapp.tsuru.io");
    assert store.users == expected;
    assert r1 == Response(StatusCreated, Vars(EnvVars(cfg, creds, "testbuckettype", "testinstance")));
    ghost var t1 := store.State();
    assert EnsureUserStep(t1, "myapp.tsuru.io") == Step(creds, t1);
    assert GrantStep(t1, creds.user, "testinstance") == Step(Ok, t1);
    r2 := service.BindInstance("testinstance", "myapp.tsuru.io");
    users := store.users;
    BindingPorts(cfg, creds, "testbuckettype", "testinstance");
  }

  /** With ports 8098 and 8087 configured (the defaults that loading the
      configuration fills in, config/riakapi.go:29-37; the test's own
      zero-valued configuration would render "0"), the payload carries them
      as the literal digits the binding test expects. */
  lemma BindingPorts(cfg: Config, creds: Creds, bucketType: string, bucketName: string)
    requires cfg.riakHTTPPort == 8098 && cfg.riakPBPort == 8087
    ensures EnvVars(cfg, creds, bucketType, bucketName)[HTTPPortKey] == "8098"
    ensures EnvVars(cfg, creds, bucketType, bucketName)[PBPortKey] == "8087"
  {
    assert FormatNat(809) == "809";
    assert FormatNat(808) == "808";
    assert FormatNat(8098) == FormatNat(809) + "8";
    assert FormatNat(8087) == FormatNat(808) + "7";
    assert FormatInt(8098) == "8098";
    assert FormatInt(8087) == "8087";
  }
}
