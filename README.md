# riakapi provisioning core, modelled in Dafny

This project models the core of the tsuru Riak service broker (`riakapi`).
The broker turns the platform's instance lifecycle requests into operations
on a Riak cluster:

- creating an instance declares a bucket of one of three bucket types (the
  plans);
- binding an application ensures a user derived from the application host
  and grants it access to the bucket, then hands back the connection
  environment;
- unbinding revokes that access;
- removing an instance and the bind/unbind events are acknowledged and do
  nothing else;
- the status endpoint asks the client whether the bucket is alive.

What is modelled, one module per source file:

| module | file | what it holds |
|---|---|---|
| `Catalog` (catalog.dfy) | service/client/client.go | the three bucket types, the `BucketTypes` and `NameBucketTypeMapping` tables as immutable values |
| `Utils` (utils.dfy) | utils/utils.go | username derivation; password derivation, with the SHA-1 hash as a parameter and its `%x` hex rendering modelled |
| `Store` (dummy.dfy) | service/client/dummy.go | the in-memory store: each operation as a `Step` on the two tables (`Tables`), and the class `Dummy` whose methods update its `buckets` and `users` fields in place and are proved to take exactly those steps |
| `Clients` (client.dfy) | service/client/client.go | the `Client` interface as a closed dispatch over `Nil`, the in-memory `Dummy` and a remote implementation whose answers are given as functions; every call is logged with its answer in a ghost `calls` sequence |
| `Endpoints` (endpoints.dfy) | service/endpoints.go | the endpoints as methods of `RiakService`, each proved to follow a decision rule (a predicate over the calls it made, in order, and its response) and, over the in-memory store, to take the store's steps |
| `Middleware` (middleware.dfy) | service/middleware.go | the Basic-Auth decision |
| `Decimal` (decimal.dfy) | service/endpoints.go | `strconv.Itoa` for the port values of the bind payload, with its inverse |
| `Scenarios` (scenarios.dfy) | service/service_test.go | the unit tests' request sequences against a fresh in-memory store |

Points where the model follows the code rather than a description of it:

- The bind payload key for the hosts is `RIAK_HOSTS`, as the code emits it
  (service/endpoints.go:99). The unit test expects `RIAK_HOST`.
- The hosts value is the JSON text of the configured host list, which
  `json.Marshal` never renders as `""` (a nil list gives `null`). The unit
  test's expected `"RIAK_HOST": ""` cannot be produced by the code, so the
  binding scenario uses a configuration whose hosts text is `null`.
- The ports are rendered from the configuration with `strconv.Itoa`
  (service/endpoints.go:100-101). The unit test's configuration sets no port,
  so the code would give "0" for both; the expected "8098" and "8087" are
  the defaults that loading the configuration fills in
  (config/riakapi.go:29-37), which the test never does. The binding
  scenario therefore configures ports 8098 and 8087.
- A name that is already declared is rejected only after the bucket type is
  validated. So creating an existing bucket with an unknown type answers
  "Not valid bucket type", not "Bucket already declared"
  (service/client/dummy.go:60-71).
- The in-memory store never revokes access (`RevokeUserAccess` always fails
  with "Not implemented"). So unbinding over it always answers 500 "Error
  revoking user" (`Endpoints.RiakService.UnbindInstance`).
- The in-memory store stores the binding word itself as the password. It does
  not call `GeneratePassword` (service/client/dummy.go:91).
- `IsAlive` is called by the status endpoint but is not part of the `Client`
  interface, and no implementation shown defines it. It is modelled as an
  abstract function `isAlive` supplied when a `Client` is built.

## Model

| member | source | states |
|---|---|---|
| `Catalog.Parse` | service/client/client.go:26-30 | a name denotes a bucket type exactly when it is a key of `BucketTypes`, and then it is that type's name; this is only the closed lookup over the tables, since the store validates a type by testing `BucketTypes` directly (dummy.go:59) |
| `Catalog.BucketTypesAreTheThreeNames` | service/client/client.go:9-30 | `BucketTypes` has exactly the keys tsuru-counter, tsuru-set and tsuru-map |
| `Catalog.MappingAgreesWithBucketTypes` | service/client/client.go:18-30 | `NameBucketTypeMapping` has the same keys as `BucketTypes` and maps them to counter, set and map; each key has its own description |
| `Catalog.ParseName` | service/client/client.go:9-16 | the three names are distinct: each name reads back as its own bucket type |
| `Utils.GenerateUsername` | utils/utils.go:9-13 | the username is "tsuru_" followed by the word, so its length is the word's plus 6 |
| `Utils.UsernameRoundTrip` | utils/utils.go:10-13 | the word can be read back from the username, and a username that reads back to a word is that word's username |
| `Utils.UsernameInjective` | utils/utils.go:11 | two words give the same username exactly when they are equal |
| `Utils.HexEncode` | utils/utils.go:20 | `%x` renders n bytes as 2n lower-case hexadecimal digits |
| `Utils.HexRoundTrip` | utils/utils.go:20 | decoding the hexadecimal rendering gives back the bytes |
| `Utils.GeneratePassword` | utils/utils.go:15-21 | the password is 40 lower-case hex digits that decode to the hash of the word followed by the salt |
| `Utils.PasswordDeterminedByDigest` | utils/utils.go:16-21 | two passwords are equal exactly when the hash gave the same digest for (word, salt) |
| `Decimal.FormatNat` | service/endpoints.go:100-101 | the decimal rendering is non-empty, all digits and has no leading zero |
| `Decimal.FormatInt` | service/endpoints.go:100-101 | the rendering starts with '-' exactly for negative numbers, and the digits after it are non-empty with no leading zero (the canonical form) |
| `Decimal.ParseFormatNat` | service/endpoints.go:100-101 | reading the digits of a natural number back gives the number |
| `Decimal.ParseFormatInt` | service/endpoints.go:100-101 | reading a rendered port back gives the configured port |
| `Store.CreateBucketRejectsUnknownType` | service/client/dummy.go:58-62 | a type outside `BucketTypes` answers "Not valid bucket type" and changes nothing |
| `Store.CreateBucketEffect` | service/client/dummy.go:58-72 | creation succeeds exactly for a valid type and a fresh name; it then adds exactly name to type and keeps every other bucket and all users; on error nothing changes |
| `Store.CreateBucketTwice` | service/client/dummy.go:66-71 | a second creation of the same name answers "Bucket already declared" and leaves the single record as it was |
| `Store.DeleteBucketEffect` | service/client/dummy.go:73-81 | deletion always succeeds; the new key set is the old one without the name, and every other bucket is kept |
| `Store.EnsureUserEffect` | service/client/dummy.go:83-101 | the user is the derived username; a new user is stored as {user, word, []} and nothing else changes; a known user leaves the tables unchanged |
| `Store.EnsureUserIdempotent` | service/client/dummy.go:90-100 | a second ensure answers the same user and password and does not change the tables |
| `Store.GrantEffect` | service/client/dummy.go:102-116 | for any tables in which the granted user's ACL (if any) has no duplicates, a grant succeeds exactly for a known user; the old ACL is a prefix of the new one, which grows by one exactly when the bucket was absent, and the bucket is then in it exactly once; the username, the password and all other users are kept; an unknown user is an error that changes nothing |
| `Store.NoDuplicatesCount` | service/client/dummy.go:107-112 | in a list without duplicates, a listed bucket occurs exactly once |
| `Store.GrantIdempotent` | service/client/dummy.go:105-113 | a repeated grant answers the same and changes nothing |
| `Store.DeleteUserEffect` | service/client/dummy.go:118-127 | a present user is removed, the new key set is the old one without it, and every other user is kept; an absent one answers "Theres no user to delete" and nothing changes |
| `Store.StepsPreserveWellFormed` | service/client/dummy.go:58-127 | every operation keeps users filed under their own username, with duplicate-free ACLs |
| `Store.RebindIsIdempotent` | service/client/dummy.go:83-116 | a grant right after ensuring the user succeeds, and binding the same word to the same bucket again answers the same credentials and changes nothing |
| `Store.Dummy.constructor` | service/client/dummy.go:30-39 | a new store has empty bucket and user tables |
| `Store.Dummy.GetBucketType` | service/client/dummy.go:41-43 | the stored type of a bucket, "" for an unknown bucket |
| `Store.Dummy.GetBucketTypes` | service/client/dummy.go:45-56 | three plans, one per bucket type with its description, no name twice, in any order |
| `Store.Dummy.CreateBucket` | service/client/dummy.go:58-72 | answer and new tables are those of the create step |
| `Store.Dummy.DeleteBucket` | service/client/dummy.go:73-81 | answer and new tables are those of the delete-bucket step |
| `Store.Dummy.EnsureUserPresent` | service/client/dummy.go:83-101 | never fails; credentials and new tables are those of the ensure step |
| `Store.Dummy.GrantUserAccess` | service/client/dummy.go:102-116 | the ACL scan and append take exactly the grant step |
| `Store.Dummy.DeleteUser` | service/client/dummy.go:118-127 | answer and new tables are those of the delete-user step |
| `Store.Dummy.RevokeUserAccess` | service/client/dummy.go:128-130 | always answers "Not implemented" |
| `Store.Dummy.BucketStatus` | service/client/dummy.go:131-133 | always answers "Not implemented" |
| `Clients.Client.constructor` | service/client/client.go:49-52 | a client starts with an empty call log |
| `Clients.Client.GetBucketType` | service/client/client.go:54 | logs the call; the Nil client answers "", the store its table entry |
| `Clients.Client.GetBucketTypes` | service/client/client.go:55 | logs the call; the Nil client answers an empty list, the store one plan per bucket type |
| `Clients.Client.CreateBucket` | service/client/client.go:56 | logs the call; the Nil client succeeds without state, the store takes its create step |
| `Clients.Client.DeleteBucket` | service/client/client.go:57 | logs the call; Nil succeeds, the store takes its delete step |
| `Clients.Client.EnsureUserPresent` | service/client/client.go:58 | logs the call; Nil answers ("", "") and succeeds, the store takes its ensure step |
| `Clients.Client.DeleteUser` | service/client/client.go:59 | logs the call; Nil succeeds, the store takes its delete-user step |
| `Clients.Client.GrantUserAccess` | service/client/client.go:60 | logs the call; Nil succeeds, the store takes its grant step |
| `Clients.Client.RevokeUserAccess` | service/client/client.go:61 | logs the call; Nil succeeds, the store answers "Not implemented" |
| `Clients.Client.BucketStatus` | service/client/client.go:62 | logs the call; Nil succeeds, the store answers "Not implemented" |
| `Clients.Client.IsAlive` | service/endpoints.go:170 | logs the call and answers the abstract liveness probe |
| `Endpoints.EnvVars` | service/endpoints.go:97-111 | the bind payload holds the seven RIAK_* keys with user, password, bucket, bucket type, hosts and the two ports (which read back as the configured ports), plus RIAK_ROOT_CA_CERT exactly when a certificate is configured |
| `Endpoints.BindFailureHidesCredentials` | service/endpoints.go:75-89 | a bind that fails answers 500 with a message and no payload; a grant is only attempted right after a successful ensure, for the ensured user |
| `Endpoints.UnbindTargetsTheBoundUser` | service/endpoints.go:128-133 | unbind revokes the username and bucket that bind granted, and never deletes the user |
| `Endpoints.RiakService.constructor` | service/service.go:24-30 | the service holds the given configuration and client |
| `Endpoints.RiakService.GetPlans` | service/endpoints.go:29-38 | one `GetBucketTypes` call; 500 with the error, else 200 with the plans (over the store, one per bucket type; over Nil, none) |
| `Endpoints.RiakService.CreateInstance` | service/endpoints.go:42-61 | empty name or plan answers 500 "Missing parameters" with no client call; else one `CreateBucket` call, 500 "Error declaring bucket type" on error, else 200 ""; over the store, the tables take the create step |
| `Endpoints.RiakService.BindInstance` | service/endpoints.go:65-115 | empty app-host answers 500 "Missing parameters" with no call; else ensure, then grant, then bucket type, stopping with 500 "Error granting user" at the first error; on success 201 with the payload; over the store always 201, with the ensure and grant steps taken |
| `Endpoints.RiakService.UnbindInstance` | service/endpoints.go:119-142 | empty app-host answers 500 "Missing parameters"; else one revoke for the derived username, 500 "Error revoking user" on error, else 200 ""; over the store always 500 |
| `Endpoints.RiakService.CheckInstanceStatus` | service/endpoints.go:166-177 | one `IsAlive` call; 204 with no body exactly when it reports alive, else 500 "Bucket error" |
| `Endpoints.RiakService.RemoveInstance` | service/endpoints.go:156-162 | 200 with an empty body, without any client access |
| `Endpoints.RiakService.BindInstanceEvent` | service/endpoints.go:144-148 | 201 with an empty body, without any client access |
| `Endpoints.RiakService.UnbindInstanceEvent` | service/endpoints.go:150-154 | 200 with an empty body, without any client access |
| `Middleware.BasicAuthHandler` | service/middleware.go:9-26 | a request is rejected with 401 "Login Required" exactly when a password is configured, Basic-Auth credentials are presented, and the user or the password differs; otherwise it passes through |
| `Middleware.OnlyConfiguredCredentialsPass` | service/middleware.go:14-19 | with a password configured, presented credentials pass exactly when both user and password match |
| `Middleware.UnauthenticatedRequestsPass` | service/middleware.go:12-24 | an empty configured password, or a request without Basic-Auth credentials, always passes through |
| `Middleware.TestedCases` | service/middleware_test.go:10-46 | matching credentials pass; a wrong configured user or password gives 401 |
| `Scenarios.InstanceCreationScenario` | service/service_test.go:100-143 | missing parameters, a wrong plan, a valid creation and a repeat answer 500, 500, 200 and 500, leaving exactly test-bucket to tsuru-counter |
| `Scenarios.InstanceBindingScenario` | service/service_test.go:199-256 | binding myapp.tsuru.io twice answers 201 with user tsuru_myapp.tsuru.io and password myapp.tsuru.io both times, with the ports rendered as "8098" and "8087", and stores that user once with ACL [testinstance] |
| `Scenarios.BindingPorts` | service/service_test.go:212-214 | with ports 8098 and 8087 configured (the defaults of config/riakapi.go:29-37; the test's zero-valued configuration would give "0"), the bind payload carries exactly the strings "8098" and "8087" |

## Left out

- Concurrency: the mutexes of the in-memory store only serialise test goroutines. The operations are modelled as sequential.
- SHA-1 itself is foreign code. `GeneratePassword` takes the hash as a function parameter; the model covers only the hexadecimal rendering of the digest. The hash is applied to the characters of word and salt, not to their UTF-8 bytes.
- `Store.Dummy`: users are values in the `users` map, not pointers to shared records. The Go store gives each user its own record, so no aliasing is lost.
- `Store.Dummy.GetBucketTypes`: each plan is a `Plan` value rather than a `{"name", "description"}` string map.
- The real Riak client is not part of this model (service/client/riak.go holds only constants). Any non-Nil, non-store implementation is a `Remote` whose answers are functions of the arguments, with no state.
- `Clients.Client.IsAlive`: the error that `IsAlive` returns beside its boolean is only logged by the caller, so it is not modelled.
- JSON encoding of the cluster hosts is not modelled. The configuration holds the encoded text. The error branch for a failed encoding (service/endpoints.go:91-95) is left out: encoding a list of host records cannot fail.
- HTTP plumbing is not modelled: request parsing, route variables, JSON response encoding, logging and route registration (service/service.go). Request parameters are plain strings; a missing one is "".
- `Middleware.BasicAuthHandler`: the decoding of the `Authorization` header is done by `net/http` and is not modelled. The request presents either no credentials or a (user, password) pair. The wrapped handler's own response is not modelled.
- Configuration loading (config/*.go), its defaults, and process start-up (cmd/main.go) are not modelled: they are environment I/O and foreign libraries.
- Integration tests against a live cluster (service/service_i_test.go, service/service_integration_test.go) are not modelled: they need network I/O.
- `Decimal.FormatInt`: Go's `int` is 64 bits wide. The model uses unbounded integers, which agree with Go for every port value.
