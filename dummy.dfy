/** The in-memory provisioning store (service/client/dummy.go): a bucket
    table (instance name to bucket type) and a user table (username to
    username, password and ACL), updated in place by the client operations.

    The effect of every operation is first given on values, as a `Step`
    from one pair of tables to the next; the class `Dummy` then implements
    each operation on its own fields and is proved to take exactly that step. */
module Store {

  import opened Outcomes
  import opened Catalog
  import opened Utils

  const NotValidBucketTypeMsg: string := "Not valid bucket type"
  const BucketAlreadyDeclaredMsg: string := "Bucket already declared"
  const NotPresentUserMsg: string := "Not present user"
  const NoUserToDeleteMsg: string := "Theres no user to delete"
  const NotImplementedMsg: string := "Not implemented"

  /** A user record: `acl` lists the bucket names the user may access. */
  datatype UserProps = UserProps(username: string, password: string, acl: seq<string>)

  /** The credentials handed out for a binding. */
  datatype Creds = Creds(user: string, pass: string)

  /** The two tables of the store. */
  datatype Tables = Tables(buckets: map<string, string>, users: map<string, UserProps>)

  /** What an operation answers, and the tables it leaves behind. */
  datatype Step<A> = Step(answer: A, next: Tables)

  predicate NoDuplicates(s: seq<string>) {
    forall i, j :: 0 <= i < j < |s| ==> s[i] != s[j]
  }

  /** The invariant every operation keeps: each user is filed under its own
      username and no bucket appears twice in an ACL. */
  predicate WellFormed(t: Tables) {
    forall u :: u in t.users ==> t.users[u].username == u && NoDuplicates(t.users[u].acl)
  }

  // ---- The operations, on values ----

  /** The bucket type is validated before anything else; a name already
      declared is rejected, whatever type is requested. */
  function CreateBucketStep(t: Tables, bucketName: string, bucketType: string): Step<Outcome>
  {
    if bucketType !in BucketTypes then Step(Err(NotValidBucketTypeMsg), t)
    else if bucketName !in t.buckets then Step(Ok, t.(buckets := t.buckets[bucketName := bucketType]))
    else Step(Err(BucketAlreadyDeclaredMsg), t)
  }

  /** Deleting a bucket always succeeds. */
  function DeleteBucketStep(t: Tables, bucketName: string): Step<Outcome>
  {
    Step(Ok, t.(buckets := t.buckets - {bucketName}))
  }

  /** The username is derived from the word; a new user gets the word itself
      as password and an empty ACL, a known user keeps its stored password. */
  function EnsureUserStep(t: Tables, word: string): Step<Creds>
  {
    var user := GenerateUsername(word);
    if user !in t.users then Step(Creds(user, word), t.(users := t.users[user := UserProps(user, word, [])]))
    else Step(Creds(user, t.users[user].password), t)
  }

  /** Adds a bucket to a known user's ACL unless it is there already. */
  function GrantStep(t: Tables, username: string, bucketName: string): Step<Outcome>
  {
    if username !in t.users then Step(Err(NotPresentUserMsg), t)
    else
      var props := t.users[username];
      if bucketName in props.acl then Step(Ok, t)
      else Step(Ok, t.(users := t.users[username := props.(acl := props.acl + [bucketName])]))
  }

  /** Removes a known user; an unknown one is an error. */
  function DeleteUserStep(t: Tables, username: string): Step<Outcome>
  {
    if username in t.users then Step(Ok, t.(users := t.users - {username}))
    else Step(Err(NoUserToDeleteMsg), t)
  }

  // ---- Properties of the operations ----

  /** An unknown bucket type is an error and changes nothing. */
  lemma CreateBucketRejectsUnknownType(t: Tables, bucketName: string, bucketType: string)
    requires bucketType !in BucketTypes
    ensures CreateBucketStep(t, bucketName, bucketType) == Step(Err(NotValidBucketTypeMsg), t)
  {
  }

  /** Creation succeeds exactly for a valid type and a fresh name; then it adds
      exactly that entry, otherwise the tables are unchanged. */
  lemma CreateBucketEffect(t: Tables, bucketName: string, bucketType: string)
    ensures var s := CreateBucketStep(t, bucketName, bucketType);
      && (s.answer == Ok <==> bucketType in BucketTypes && bucketName !in t.buckets)
      && s.next.users == t.users
      && (s.answer == Ok ==>
            && s.next.buckets.Keys == t.buckets.Keys + {bucketName}
            && s.next.buckets[bucketName] == bucketType
            && forall n :: n in t.buckets ==> s.next.buckets[n] == t.buckets[n])
      && (s.answer != Ok ==> s.next == t)
  {
  }

  /** Declaring a name twice: the second call answers "Bucket already
      declared" and leaves exactly one record for the name. */
  lemma CreateBucketTwice(t: Tables, bucketName: string, type1: string, type2: string)
    requires type1 in BucketTypes && type2 in BucketTypes
    ensures var s1 := CreateBucketStep(t, bucketName, type1);
            var s2 := CreateBucketStep(s1.next, bucketName, type2);
      && s2 == Step(Err(BucketAlreadyDeclaredMsg), s1.next)
      && s2.next.buckets[bucketName] == (if bucketName in t.buckets then t.buckets[bucketName] else type1)
  {
  }

  /** After a deletion the name is absent, every other bucket is kept and
      none is added. */
  lemma DeleteBucketEffect(t: Tables, bucketName: string)
    ensures var s := DeleteBucketStep(t, bucketName);
      && s.answer == Ok && bucketName !in s.next.buckets && s.next.users == t.users
      && s.next.buckets.Keys == t.buckets.Keys - {bucketName}
      && forall n :: n in t.buckets && n != bucketName ==> n in s.next.buckets && s.next.buckets[n] == t.buckets[n]
  {
  }

  /** The username is derived from the word; a new user is stored with the
      word as password and an empty ACL, and nothing else changes. */
  lemma EnsureUserEffect(t: Tables, word: string)
    ensures var s := EnsureUserStep(t, word);
      && s.answer.user == GenerateUsername(word)
      && s.next.buckets == t.buckets
      && s.answer.user in s.next.users
      && s.next.users[s.answer.user].password == s.answer.pass
      && (GenerateUsername(word) !in t.users ==>
            && s.answer.pass == word
            && s.next.users == t.users[s.answer.user := UserProps(s.answer.user, word, [])])
      && (GenerateUsername(word) in t.users ==> s.next == t)
  {
  }

  /** Ensuring a user a second time answers the same credentials and does
      not touch the tables. */
  lemma EnsureUserIdempotent(t: Tables, word: string)
    ensures var s1 := EnsureUserStep(t, word);
            var s2 := EnsureUserStep(s1.next, word);
      s2.answer == s1.answer && s2.next == s1.next
  {
  }

  /** A grant to a known user keeps its ACL as a prefix, appends the bucket
      only when it is missing, so that it is then in the ACL exactly once,
      and changes no other entry; to an unknown user it is an error. */
  lemma GrantEffect(t: Tables, username: string, bucketName: string)
    requires username in t.users ==> NoDuplicates(t.users[username].acl)
    ensures var s := GrantStep(t, username, bucketName);
      && (s.answer == Ok <==> username in t.users)
      && (s.answer != Ok ==> s.next == t)
      && s.next.buckets == t.buckets
      && s.next.users.Keys == t.users.Keys
      && (forall u :: u in t.users && u != username ==> s.next.users[u] == t.users[u])
      && (username in t.users ==>
            && bucketName in s.next.users[username].acl
            && NoDuplicates(s.next.users[username].acl)
            && multiset(s.next.users[username].acl)[bucketName] == 1
            && t.users[username].acl <= s.next.users[username].acl
            && |s.next.users[username].acl| == |t.users[username].acl| + (if bucketName in t.users[username].acl then 0 else 1)
            && s.next.users[username].username == t.users[username].username
            && s.next.users[username].password == t.users[username].password)
  {
    if username in t.users {
      var acl := t.users[username].acl;
      var acl' := GrantStep(t, username, bucketName).next.users[username].acl;
      NoDuplicatesCount(acl', bucketName);
    }
  }

  /** An element of a list without duplicates occurs in it once. */
  lemma {:induction false} NoDuplicatesCount(s: seq<string>, x: string)
    requires NoDuplicates(s) && x in s
    ensures multiset(s)[x] == 1
  {
    if s[0] == x {
      assert x !in s[1..];
      assert s == [s[0]] + s[1..];
    } else {
      NoDuplicatesCount(s[1..], x);
      assert s == [s[0]] + s[1..];
    }
  }

  /** A repeated grant is a no-op. */
  lemma GrantIdempotent(t: Tables, username: string, bucketName: string)
    ensures var s1 := GrantStep(t, username, bucketName);
            GrantStep(s1.next, username, bucketName) == s1
  {
  }

  /** A present user is removed and no user is added; an absent one is the
      error "Theres no user to delete" and changes nothing. */
  lemma DeleteUserEffect(t: Tables, username: string)
    ensures var s := DeleteUserStep(t, username);
      && (s.answer == Ok <==> username in t.users)
      && username !in s.next.users
      && s.next.buckets == t.buckets
      && (s.answer != Ok ==> s.answer == Err(NoUserToDeleteMsg) && s.next == t)
      && s.next.users.Keys == t.users.Keys - {username}
      && forall u :: u in t.users && u != username ==> u in s.next.users && s.next.users[u] == t.users[u]
  {
  }

  /** Every operation keeps the tables well formed. */
  lemma StepsPreserveWellFormed(t: Tables, name: string, bucketType: string, word: string, username: string)
    requires WellFormed(t)
    ensures WellFormed(CreateBucketStep(t, name, bucketType).next)
    ensures WellFormed(DeleteBucketStep(t, name).next)
    ensures WellFormed(EnsureUserStep(t, word).next)
    ensures WellFormed(GrantStep(t, username, name).next)
    ensures WellFormed(DeleteUserStep(t, username).next)
  {
    var g := GrantStep(t, username, name).next;
    if username in t.users && name !in t.users[username].acl {
      var acl := t.users[username].acl;
      assert g.users[username].acl == acl + [name];
      assert NoDuplicates(acl + [name]) by {
        forall i, j | 0 <= i < j < |acl + [name]|
          ensures (acl + [name])[i] != (acl + [name])[j]
        {
          if j == |acl| { assert (acl + [name])[i] == acl[i]; }
        }
      }
    }
  }

  /** A grant right after ensuring the user always succeeds, and binding the
      same word to the same bucket a second time changes nothing and hands
      out the same credentials. */
  lemma RebindIsIdempotent(t: Tables, word: string, bucketName: string)
    ensures var e1 := EnsureUserStep(t, word);
            var g1 := GrantStep(e1.next, e1.answer.user, bucketName);
            var e2 := EnsureUserStep(g1.next, word);
            var g2 := GrantStep(e2.next, e2.answer.user, bucketName);
      && g1.answer == Ok && g2.answer == Ok
      && e2.answer == e1.answer
      && g2.next == g1.next
  {
  }

  // ---- The store object ----

  /** The plans listed so far while iterating over `table`: each is a
      distinct key already taken out of `remaining`, with its description,
      and every key already taken out has been listed. */
  predicate PlansSoFar(table: map<string, string>, plans: seq<Plan>, remaining: set<string>) {
    && (forall i :: 0 <= i < |plans| ==> plans[i].name in table && plans[i].name !in remaining && plans[i].description == table[plans[i].name])
    && (forall name :: name in table && name !in remaining ==> exists i :: 0 <= i < |plans| && plans[i].name == name)
    && (forall i, j :: 0 <= i < j < |plans| ==> plans[i].name != plans[j].name)
  }

  /** Listing one more remaining key keeps `PlansSoFar`. */
  lemma PlansSoFarStep(table: map<string, string>, plans: seq<Plan>, remaining: set<string>, name: string)
    requires remaining <= table.Keys && name in remaining
    requires PlansSoFar(table, plans, remaining)
    ensures PlansSoFar(table, plans + [Plan(name, table[name])], remaining - {name})
  {
    var plans' := plans + [Plan(name, table[name])];
    forall n | n in table && n !in remaining - {name}
      ensures exists i :: 0 <= i < |plans'| && plans'[i].name == n
    {
      if n == name {
        assert plans'[|plans|].name == n;
      } else {
        var i :| 0 <= i < |plans| && plans[i].name == n;
        assert plans'[i].name == n;
      }
    }
  }

  /** The in-memory client used by the tests (sequential: the mutexes of the
      Go type only serialise the test goroutines). */
  class Dummy {
    var buckets: map<string, string>
    var users: map<string, UserProps>

    ghost function State(): Tables
      reads this
    {
      Tables(buckets, users)
    }

    /** `NewDummy`: both tables start empty. */
    constructor ()
      ensures State() == Tables(map[], map[])
      ensures WellFormed(State())
    {
      buckets := map[];
      users := map[];
    }

    /** The type of a bucket, or "" for an unknown bucket. */
    function GetBucketType(bucketName: string): (bucketType: string)
      reads this
      ensures bucketName in buckets ==> bucketType == buckets[bucketName]
      ensures bucketName !in buckets ==> bucketType == ""
    {
      if bucketName in buckets then buckets[bucketName] else ""
    }

    /** One plan per bucket type, in the unspecified order in which a Go map
        is iterated. */
    method GetBucketTypes() returns (plans: seq<Plan>)
      ensures |plans| == 3
      ensures ListsEveryPlan(plans)
    {
      BucketTypesAreTheThreeNames();
      var table := BucketTypes;
      plans := [];
      var remaining := table.Keys;
      while remaining != {}
        invariant remaining <= table.Keys
        invariant |plans| + |remaining| == |table|
        invariant PlansSoFar(table, plans, remaining)
        decreases remaining
      {
        var name :| name in remaining;
        PlansSoFarStep(table, plans, remaining, name);
        plans := plans + [Plan(name, table[name])];
        remaining := remaining - {name};
      }
    }

    method CreateBucket(bucketName: string, bucketType: string) returns (err: Outcome)
      modifies this`buckets
      ensures Step(err, State()) == CreateBucketStep(old(State()), bucketName, bucketType)
    {
      if bucketType !in BucketTypes {
        return Err(NotValidBucketTypeMsg);
      }
      if bucketName !in buckets {
        buckets := buckets[bucketName := bucketType];
        return Ok;
      }
      return Err(BucketAlreadyDeclaredMsg);
    }

    method DeleteBucket(bucketName: string, bucketType: string) returns (err: Outcome)
      modifies this`buckets
      ensures Step(err, State()) == DeleteBucketStep(old(State()), bucketName)
    {
      if bucketName in buckets {
        buckets := buckets - {bucketName};
        return Ok;
      }
      return Ok;
    }

    method EnsureUserPresent(word: string) returns (user: string, pass: string, err: Outcome)
      modifies this`users
      ensures err == Ok
      ensures Step(Creds(user, pass), State()) == EnsureUserStep(old(State()), word)
    {
      user := GenerateUsername(word);
      err := Ok;
      if user !in users {
        pass := word;
        users := users[user := UserProps(user, pass, [])];
        return;
      }
      pass := users[user].password;
    }

    /** Scans the ACL for the bucket before appending it. */
    method GrantUserAccess(username: string, bucketName: string) returns (err: Outcome)
      modifies this`users
      ensures Step(err, State()) == GrantStep(old(State()), username, bucketName)
    {
      if username in users {
        var props := users[username];
        var i := 0;
        while i < |props.acl|
          invariant 0 <= i <= |props.acl|
          invariant bucketName !in props.acl[..i]
        {
          if props.acl[i] == bucketName {
            return Ok;
          }
          i := i + 1;
        }
        assert props.acl[..i] == props.acl;
        users := users[username := props.(acl := props.acl + [bucketName])];
        return Ok;
      }
      return Err(NotPresentUserMsg);
    }

    method DeleteUser(username: string) returns (err: Outcome)
      modifies this`users
      ensures Step(err, State()) == DeleteUserStep(old(State()), username)
    {
      if username in users {
        users := users - {username};
        return Ok;
      }
      return Err(NoUserToDeleteMsg);
    }

    /** Not supported by the in-memory store. */
    method RevokeUserAccess(username: string, bucketName: string) returns (err: Outcome)
      ensures err == Err(NotImplementedMsg)
    {
      return Err(NotImplementedMsg);
    }

    /** Not supported by the in-memory store. */
    method BucketStatus(bucketName: string) returns (err: Outcome)
      ensures err == Err(NotImplementedMsg)
    {
      return Err(NotImplementedMsg);
    }
  }
}
