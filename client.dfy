/** The client interface of service/client/client.go, dispatched over the
    implementations it has: the no-op `Nil` client, the in-memory `Dummy`
    store, and a remote implementation whose internals are not part of this
    model and whose answers are therefore given as functions.

    Every call is appended, with its answer, to the ghost log `calls`, so that
    the endpoints can be specified by the calls they make and in what order. */
module Clients {

  import opened Outcomes
  import opened Catalog
  import opened Store

  /** The answers of a remote implementation, as functions of the arguments. */
  datatype Remote = Remote(
    bucketType: string -> string,
    bucketTypes: (seq<Plan>, Outcome),
    createBucket: (string, string) -> Outcome,
    deleteBucket: (string, string) -> Outcome,
    ensureUser: string -> (Creds, Outcome),
    deleteUser: string -> Outcome,
    grantUserAccess: (string, string) -> Outcome,
    revokeUserAccess: (string, string) -> Outcome,
    bucketStatus: string -> Outcome)

  datatype Backend = NilClient | MemoryClient(store: Dummy) | RemoteClient(remote: Remote)

  /** One call to the client, with what it answered. */
  datatype Call =
    | GetBucketTypeCall(bucketName: string, bucketType: string)
    | GetBucketTypesCall(plans: seq<Plan>, err: Outcome)
    | CreateBucketCall(bucketName: string, bucketType: string, err: Outcome)
    | DeleteBucketCall(bucketName: string, bucketType: string, err: Outcome)
    | EnsureUserPresentCall(word: string, creds: Creds, err: Outcome)
    | DeleteUserCall(username: string, err: Outcome)
    | GrantUserAccessCall(username: string, bucketName: string, err: Outcome)
    | RevokeUserAccessCall(username: string, bucketName: string, err: Outcome)
    | BucketStatusCall(bucketName: string, err: Outcome)
    | IsAliveCall(bucketName: string, ok: bool)

  class Client {
    const backend: Backend
    /** The liveness probe the status endpoint uses; no implementation in
        the source defines it, so it is given at construction. */
    const isAlive: string -> bool
    ghost var calls: seq<Call>

    /** The objects a call may change besides the log. */
    ghost function Footprint(): set<object> {
      if backend.MemoryClient? then {backend.store} else {}
    }

    constructor (backend: Backend, isAlive: string -> bool)
      ensures this.backend == backend && this.isAlive == isAlive && calls == []
    {
      this.backend := backend;
      this.isAlive := isAlive;
      calls := [];
    }

    method GetBucketType(bucketName: string) returns (bucketType: string)
      modifies this
      ensures calls == old(calls) + [GetBucketTypeCall(bucketName, bucketType)]
      ensures backend.NilClient? ==> bucketType == ""
      ensures backend.MemoryClient? ==> bucketType == backend.store.GetBucketType(bucketName)
      ensures backend.RemoteClient? ==> bucketType == backend.remote.bucketType(bucketName)
    {
      match backend {
      case NilClient => bucketType := "";
      case MemoryClient(store) => bucketType := store.GetBucketType(bucketName);
      case RemoteClient(remote) => bucketType := remote.bucketType(bucketName);
      }
      calls := calls + [GetBucketTypeCall(bucketName, bucketType)];
    }

    method GetBucketTypes() returns (plans: seq<Plan>, err: Outcome)
      modifies this
      ensures calls == old(calls) + [GetBucketTypesCall(plans, err)]
      ensures backend.NilClient? ==> plans == [] && err == Ok
      ensures backend.MemoryClient? ==> ListsEveryPlan(plans) && err == Ok
      ensures backend.RemoteClient? ==> (plans, err) == backend.remote.bucketTypes
    {
      match backend {
      case NilClient => plans, err := [], Ok;
      case MemoryClient(store) => plans := store.GetBucketTypes(); err := Ok;
      case RemoteClient(remote) => plans, err := remote.bucketTypes.0, remote.bucketTypes.1;
      }
      calls := calls + [GetBucketTypesCall(plans, err)];
    }

    method CreateBucket(bucketName: string, bucketType: string) returns (err: Outcome)
      modifies this, Footprint()
      ensures calls == old(calls) + [CreateBucketCall(bucketName, bucketType, err)]
      ensures backend.NilClient? ==> err == Ok
      ensures backend.MemoryClient? ==>
        Step(err, backend.store.State()) == CreateBucketStep(old(backend.store.State()), bucketName, bucketType)
      ensures backend.RemoteClient? ==> err == backend.remote.createBucket(bucketName, bucketType)
    {
      match backend {
      case NilClient => err := Ok;
      case MemoryClient(store) => err := store.CreateBucket(bucketName, bucketType);
      case RemoteClient(remote) => err := remote.createBucket(bucketName, bucketType);
      }
      calls := calls + [CreateBucketCall(bucketName, bucketType, err)];
    }

    method DeleteBucket(bucketName: string, bucketType: string) returns (err: Outcome)
      modifies this, Footprint()
      ensures calls == old(calls) + [DeleteBucketCall(bucketName, bucketType, err)]
      ensures backend.NilClient? ==> err == Ok
      ensures backend.MemoryClient? ==>
        Step(err, backend.store.State()) == DeleteBucketStep(old(backend.store.State()), bucketName)
      ensures backend.RemoteClient? ==> err == backend.remote.deleteBucket(bucketName, bucketType)
    {
      match backend {
      case NilClient => err := Ok;
      case MemoryClient(store) => err := store.DeleteBucket(bucketName, bucketType);
      case RemoteClient(remote) => err := remote.deleteBucket(bucketName, bucketType);
      }
      calls := calls + [DeleteBucketCall(bucketName, bucketType, err)];
    }

    method EnsureUserPresent(word: string) returns (user: string, pass: string, err: Outcome)
      modifies this, Footprint()
      ensures calls == old(calls) + [EnsureUserPresentCall(word, Creds(user, pass), err)]
      ensures backend.NilClient? ==> user == "" && pass == "" && err == Ok
      ensures backend.MemoryClient? ==>
        err == Ok && Step(Creds(user, pass), backend.store.State()) == EnsureUserStep(old(backend.store.State()), word)
      ensures backend.RemoteClient? ==> (Creds(user, pass), err) == backend.remote.ensureUser(word)
    {
      match backend {
      case NilClient => user, pass, err := "", "", Ok;
      case MemoryClient(store) => user, pass, err := store.EnsureUserPresent(word);
      case RemoteClient(remote) =>
        var answer := remote.ensureUser(word);
        user, pass, err := answer.0.user, answer.0.pass, answer.1;
      }
      calls := calls + [EnsureUserPresentCall(word, Creds(user, pass), err)];
    }

    method DeleteUser(username: string) returns (err: Outcome)
      modifies this, Footprint()
      ensures calls == old(calls) + [DeleteUserCall(username, err)]
      ensures backend.NilClient? ==> err == Ok
      ensures backend.MemoryClient? ==>
        Step(err, backend.store.State()) == DeleteUserStep(old(backend.store.State()), username)
      ensures backend.RemoteClient? ==> err == backend.remote.deleteUser(username)
    {
      match backend {
      case NilClient => err := Ok;
      case MemoryClient(store) => err := store.DeleteUser(username);
      case RemoteClient(remote) => err := remote.deleteUser(username);
      }
      calls := calls + [DeleteUserCall(username, err)];
    }

    method GrantUserAccess(username: string, bucketName: string) returns (err: Outcome)
      modifies this, Footprint()
      ensures calls == old(calls) + [GrantUserAccessCall(username, bucketName, err)]
      ensures backend.NilClient? ==> err == Ok
      ensures backend.MemoryClient? ==>
        Step(err, backend.store.State()) == GrantStep(old(backend.store.State()), username, bucketName)
      ensures backend.RemoteClient? ==> err == backend.remote.grantUserAccess(username, bucketName)
    {
      match backend {
      case NilClient => err := Ok;
      case MemoryClient(store) => err := store.GrantUserAccess(username, bucketName);
      case RemoteClient(remote) => err := remote.grantUserAccess(username, bucketName);
      }
      calls := calls + [GrantUserAccessCall(username, bucketName, err)];
    }

    method RevokeUserAccess(username: string, bucketName: string) returns (err: Outcome)
      modifies this
      ensures calls == old(calls) + [RevokeUserAccessCall(username, bucketName, err)]
      ensures backend.NilClient? ==> err == Ok
      ensures backend.MemoryClient? ==> err == Err(NotImplementedMsg)
      ensures backend.RemoteClient? ==> err == backend.remote.revokeUserAccess(username, bucketName)
    {
      match backend {
      case NilClient => err := Ok;
      case MemoryClient(store) => err := store.RevokeUserAccess(username, bucketName);
      case RemoteClient(remote) => err := remote.revokeUserAccess(username, bucketName);
      }
      calls := calls + [RevokeUserAccessCall(username, bucketName, err)];
    }

    method BucketStatus(bucketName: string) returns (err: Outcome)
      modifies this
      ensures calls == old(calls) + [BucketStatusCall(bucketName, err)]
      ensures backend.NilClient? ==> err == Ok
      ensures backend.MemoryClient? ==> err == Err(NotImplementedMsg)
      ensures backend.RemoteClient? ==> err == backend.remote.bucketStatus(bucketName)
    {
      match backend {
      case NilClient => err := Ok;
      case MemoryClient(store) => err := store.BucketStatus(bucketName);
      case RemoteClient(remote) => err := remote.bucketStatus(bucketName);
      }
      calls := calls + [BucketStatusCall(bucketName, err)];
    }

    method IsAlive(bucketName: string) returns (ok: bool)
      modifies this
      ensures calls == old(calls) + [IsAliveCall(bucketName, ok)]
      ensures ok == isAlive(bucketName)
    {
      ok := isAlive(bucketName);
      calls := calls + [IsAliveCall(bucketName, ok)];
    }
  }
}
